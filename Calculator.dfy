/** `StockCalculator`: a rate table and a trade log, with the three
    operations the form calls. Trade records are objects: `add_trade` returns
    the very record the log holds, and every summary rewrites its annotation
    in place. */
module Calculator {
  import opened Wrappers
  import opened Orders
  import opened FeeEngine
  import opened DilutedPool

  /** One trade record. Everything but the annotation is fixed at creation. */
  class Trade {
    const code: string
    const name: string
    const op: string
    const p: real
    const q: int
    const amt: real
    const comm: real
    const transfer: real
    const tax: real
    const fee: real
    var desc: Note

    constructor (code: string, name: string, op: string, p: real, q: int, f: Fees)
      ensures this.code == code && this.name == name && this.op == op
      ensures this.p == p && this.q == q
      ensures amt == f.amt && comm == f.comm && transfer == f.transfer
      ensures tax == f.tax && fee == f.total
      ensures desc == Empty
    {
      this.code, this.name, this.op, this.p, this.q := code, name, op, p, q;
      amt, comm, transfer, tax, fee := f.amt, f.comm, f.transfer, f.tax, f.total;
      desc := Empty;
    }

    /** The fields the pool reads. */
    function AsLeg(): (leg: Leg) {
      Leg(op == BUY, p, q, fee)
    }
  }

  /** The pool's view of every record of the log, in order. */
  function Legs(log: seq<Trade>): (legs: seq<Leg>) {
    seq(|log|, i requires 0 <= i < |log| => log[i].AsLeg())
  }

  /** The body of the summary loop for one trade `t`, starting from the
      pooled quantity `qty` and cost `cost`: moves the pool and writes `t`'s
      annotation, or reports the division by zero and leaves `t` untouched. */
  method SummaryStep(t: Trade, qty: int, cost: real) returns (r: StepResult)
    modifies t
    ensures r == Step(Pool(qty, cost), t.AsLeg())
    ensures t.desc == if r.Stepped? then r.note else old(t.desc)
  {
    var costPool, qtyPool := cost, qty;
    if t.op == BUY {
      costPool := costPool + t.p * t.q as real + t.fee;
      qtyPool := qtyPool + t.q;
      if qtyPool == 0 {
        return DivByZero;
      }
      t.desc := Accumulate(costPool / qtyPool as real);
    } else {
      var net := t.p * t.q as real - t.fee;
      costPool := costPool - net;
      qtyPool := qtyPool - t.q;
      if qtyPool <= 0 {
        t.desc := Close(-costPool);
        costPool := 0.0;
        qtyPool := 0;
      } else {
        t.desc := Reduce(costPool / qtyPool as real);
      }
    }
    r := Stepped(Pool(qtyPool, costPool), t.desc);
  }

  class StockCalculator {
    var transactions: seq<Trade>
    var rates: Rates

    /** No record appears twice in the log. */
    ghost predicate Valid()
      reads this
    {
      forall i, j :: 0 <= i < j < |transactions| ==> transactions[i] != transactions[j]
    }

    constructor ()
      ensures Valid() && transactions == [] && rates == DefaultRates
    {
      transactions := [];
      rates := DefaultRates;
    }

    /** Parses and stores the four rates one after the other; `parse` stands
        for Python's `float`. The third argument is the stamp-tax rate and the
        fourth the transfer rate. A failed parse stops the update, and the
        rates stored before it keep their new values. */
    method UpdateRates(c: string, m: string, t: string, tf: string, parse: string -> Option<real>)
      returns (ok: bool)
      modifies this`rates
      ensures ok <==> parse(c).Some? && parse(m).Some? && parse(t).Some? && parse(tf).Some?
      ensures rates.comm == if parse(c).Some? then parse(c).value else old(rates.comm)
      ensures rates.minComm ==
                if parse(c).Some? && parse(m).Some? then parse(m).value else old(rates.minComm)
      ensures rates.tax ==
                if parse(c).Some? && parse(m).Some? && parse(t).Some? then parse(t).value
                else old(rates.tax)
      ensures rates.transfer == if ok then parse(tf).value else old(rates.transfer)
    {
      ok := false;
      var c1 := parse(c);
      if c1.None? { return; }
      rates := rates.(comm := c1.value);
      var m1 := parse(m);
      if m1.None? { return; }
      rates := rates.(minComm := m1.value);
      var t1 := parse(t);
      if t1.None? { return; }
      rates := rates.(tax := t1.value);
      var tf1 := parse(tf);
      if tf1.None? { return; }
      rates := rates.(transfer := tf1.value);
      ok := true;
    }

    /** Prices a trade with the current rates, appends its record to the log
        with an empty annotation and returns that record. */
    method AddTrade(code: string, name: string, op: string, price: real, qty: int)
      returns (trade: Trade)
      requires Valid()
      modifies this`transactions
      ensures Valid() && fresh(trade)
      ensures transactions == old(transactions) + [trade]
      ensures trade.code == code && trade.name == name && trade.op == op
      ensures trade.p == price && trade.q == qty && trade.desc == Empty
      ensures var f := ComputeFees(op, price, qty, rates);
              trade.amt == f.amt && trade.comm == f.comm && trade.transfer == f.transfer &&
              trade.tax == f.tax && trade.fee == f.total
    {
      var f := ComputeFees(op, price, qty, rates);
      trade := new Trade(code, name, op, price, qty, f);
      transactions := transactions + [trade];
    }

    /** Recomputes the diluted pool over the whole log, rewriting every
        record's annotation, and returns the final pooled quantity and cost.
        `None` stands for the division by zero raised when a buy leaves the
        pooled quantity at 0; the annotations before that trade have then
        already been rewritten and the rest are untouched. */
    method GetPortfolioSummary() returns (r: Option<Pool>)
      requires Valid()
      modifies transactions
      ensures var out := Run(Legs(transactions));
              (r.Some? <==> out.Finished?) &&
              (out.Finished? ==> r.value == out.pool) &&
              (forall i :: 0 <= i < |out.notes| ==> transactions[i].desc == out.notes[i]) &&
              (forall i :: |out.notes| <= i < |transactions| ==>
                 transactions[i].desc == old(transactions[i].desc))
    {
      var log := transactions;
      ghost var legs := Legs(log);
      ghost var notes: seq<Note> := [];
      ghost var initial := seq(|log|, j requires 0 <= j < |log| reads log => log[j].desc);
      var pool := Zero;
      var i := 0;
      while i < |log|
        invariant 0 <= i <= |log| && log == transactions
        invariant Run(legs[..i]) == Finished(pool, notes)
        invariant forall j :: 0 <= j < |log| ==>
                    log[j].desc == if j < i then notes[j] else initial[j]
      {
        var t := log[i];
        var step := SummaryStep(t, pool.qty, pool.cost);
        RunExtends(legs, i);
        if step.DivByZero? {
          FailureIsFinal(legs, i + 1);
          return None;
        }
        pool := step.pool;
        notes := notes + [step.note];
        i := i + 1;
      }
      assert legs[..i] == legs;
      r := Some(pool);
    }
  }

  /** Two summaries in a row return the same result and leave the same
      annotations as one: the pass starts from zero and reads nothing it
      writes. */
  method SummaryIsIdempotent(calculator: StockCalculator) returns (first: Option<Pool>, second: Option<Pool>)
    requires calculator.Valid()
    modifies calculator.transactions
    ensures first == second
    ensures var out := Run(Legs(calculator.transactions));
            forall i :: 0 <= i < |calculator.transactions| ==>
              calculator.transactions[i].desc ==
                if i < |out.notes| then out.notes[i] else old(calculator.transactions[i].desc)
  {
    first := calculator.GetPortfolioSummary();
    second := calculator.GetPortfolioSummary();
  }

  /** The worked example: with the default rates, buying 1000 shares at 10
      costs 5.1 in fees and annotates an average cost of 10.0051; selling them
      at 11 costs 10.61, closes the pool and records a profit of 984.29. */
  method DefaultRatesRoundTrip() returns (calculator: StockCalculator, summary: Option<Pool>)
    ensures fresh(calculator) && |calculator.transactions| == 2
    ensures calculator.transactions[0].fee == 5.1 && calculator.transactions[1].fee == 10.61
    ensures calculator.transactions[0].desc == Accumulate(10.0051)
    ensures calculator.transactions[1].desc == Close(984.29)
    ensures summary == Some(Zero)
  {
    calculator := new StockCalculator();
    var bought := calculator.AddTrade("600000", "sample", BUY, 10.0, 1000);
    var sold := calculator.AddTrade("600000", "sample", SELL, 11.0, 1000);
    assert Legs(calculator.transactions) ==
           [Leg(true, 10.0, 1000, 5.1), Leg(false, 11.0, 1000, 10.61)];
    BuyThenSellAll();
    summary := calculator.GetPortfolioSummary();
  }
}
