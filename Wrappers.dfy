/** Option type used for values that may be missing: a failed number parse,
    or a portfolio summary that stopped on a division by zero. */
module Wrappers {
  datatype Option<+T> = None | Some(value: T)
}
