/** The fee arithmetic of `StockCalculator.add_trade`: commission with a
    minimum, transfer fee, and stamp tax charged on sells only. */
module FeeEngine {
  import opened Orders

  /** The calculator's rate table: commission rate, minimum commission,
      transfer-fee rate and stamp-tax rate. */
  datatype Rates = Rates(comm: real, minComm: real, transfer: real, tax: real)

  /** The rates a new calculator starts with. */
  const DefaultRates: Rates := Rates(0.00025, 5.0, 0.00001, 0.0005)

  /** Gross amount and fee breakdown of one trade. */
  datatype Fees = Fees(amt: real, comm: real, transfer: real, tax: real, total: real)

  /** Python's two-argument `max`: the first argument unless the second is larger. */
  function Max(a: real, b: real): (m: real)
    ensures m >= a && m >= b
    ensures m == a || m == b
  {
    if b > a then b else a
  }

  /** Fees of a trade of `qty` shares at `price` on side `op`. Only the side
      spelled exactly "sell" pays stamp tax. */
  function ComputeFees(op: string, price: real, qty: int, rates: Rates): (f: Fees)
    ensures f.amt == price * qty as real
    ensures f.comm >= f.amt * rates.comm && f.comm >= rates.minComm
    ensures f.comm == f.amt * rates.comm || f.comm == rates.minComm
    ensures f.amt * rates.comm <= rates.minComm ==> f.comm == rates.minComm
    ensures f.transfer == f.amt * rates.transfer
    ensures op == SELL ==> f.tax == f.amt * rates.tax
    ensures op != SELL ==> f.tax == 0.0
    ensures f.total == f.comm + f.transfer + f.tax
  {
    var amt := price * qty as real;
    var comm := Max(amt * rates.comm, rates.minComm);
    var transfer := amt * rates.transfer;
    var tax := if op == SELL then amt * rates.tax else 0.0;
    Fees(amt, comm, transfer, tax, comm + transfer + tax)
  }

  /** The same trade costs exactly the stamp tax more as a sell than as a buy;
      gross amount, commission and transfer fee do not depend on the side. */
  lemma SellPaysStampTaxOnTop(price: real, qty: int, rates: Rates)
    ensures var b := ComputeFees(BUY, price, qty, rates);
            var s := ComputeFees(SELL, price, qty, rates);
            s.amt == b.amt && s.comm == b.comm && s.transfer == b.transfer &&
            b.tax == 0.0 && s.total == b.total + b.amt * rates.tax
  {
  }

  /** With non-negative rates and a non-negative amount, no fee is negative
      and the total is never below the minimum commission. */
  lemma FeesAreNonNegative(op: string, price: real, qty: int, rates: Rates)
    requires price >= 0.0 && qty >= 0
    requires rates.comm >= 0.0 && rates.minComm >= 0.0 && rates.transfer >= 0.0 && rates.tax >= 0.0
    ensures var f := ComputeFees(op, price, qty, rates);
            f.amt >= 0.0 && f.transfer >= 0.0 && f.tax >= 0.0 && f.total >= rates.minComm
  {
  }
}
