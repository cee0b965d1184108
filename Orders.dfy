/** The two order sides, which the calculator keeps as plain strings. */
module Orders {
  const BUY: string := "buy"
  const SELL: string := "sell"
}
