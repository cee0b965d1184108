/** The diluted-cost pool that `StockCalculator.get_portfolio_summary`
    recomputes from scratch over the trade log, stated as a pure fold.
    One pool is kept for the whole log, whatever the security code. */
module DilutedPool {
  /** What the pool reads from a trade: whether its side is exactly "buy"
      (every other side is handled as a sell), price, quantity and total fee. */
  datatype Leg = Leg(isBuy: bool, p: real, q: int, fee: real)

  /** Pooled quantity and pooled cost. */
  datatype Pool = Pool(qty: int, cost: real)

  /** The annotation written into a trade: empty before any summary, then the
      diluted average cost after an accumulate or a reduce, or the profit or
      loss on a close. */
  datatype Note = Empty | Accumulate(avg: real) | Reduce(avg: real) | Close(pl: real)

  const Zero: Pool := Pool(0, 0.0)

  function Add(a: Pool, b: Pool): (sum: Pool) {
    Pool(a.qty + b.qty, a.cost + b.cost)
  }

  /** The change one trade makes to the pool when no close intervenes: a buy
      adds its quantity and its price plus fee; every other side removes its
      quantity and its proceeds net of fee. */
  function Signed(leg: Leg): (delta: Pool) {
    if leg.isBuy then Pool(leg.q, leg.p * leg.q as real + leg.fee)
    else Pool(-leg.q, -(leg.p * leg.q as real - leg.fee))
  }

  /** Plain running total of `Signed` over a run of trades. */
  function Net(legs: seq<Leg>): (total: Pool) {
    if legs == [] then Zero else Add(Net(legs[..|legs| - 1]), Signed(legs[|legs| - 1]))
  }

  /** One iteration of the summary loop: either the new pool and the trade's
      annotation, or the division by zero raised when a buy leaves the pooled
      quantity at exactly 0. */
  datatype StepResult = Stepped(pool: Pool, note: Note) | DivByZero

  function Step(pool: Pool, leg: Leg): (r: StepResult)
    ensures r.DivByZero? <==> leg.isBuy && pool.qty + leg.q == 0
    ensures r.Stepped? ==> !r.note.Empty? && (r.note.Accumulate? <==> leg.isBuy)
    ensures r.Stepped? && r.note.Close? <==> !leg.isBuy && pool.qty - leg.q <= 0
    ensures r.Stepped? && r.note.Close? ==>
              r.pool == Zero && r.note.pl == (leg.p * leg.q as real - leg.fee) - pool.cost
    ensures r.Stepped? && (r.note.Accumulate? || r.note.Reduce?) ==>
              r.pool == Add(pool, Signed(leg)) && r.pool.qty != 0
    ensures r.Stepped? && r.note.Reduce? ==> r.pool.qty > 0
  {
    var moved := Add(pool, Signed(leg));
    if leg.isBuy then
      if moved.qty == 0 then DivByZero
      else Stepped(moved, Accumulate(moved.cost / moved.qty as real))
    else if moved.qty <= 0 then Stepped(Zero, Close(-moved.cost))
    else Stepped(moved, Reduce(moved.cost / moved.qty as real))
  }

  /** The average an accumulate or reduce annotation records, times the pooled
      quantity, is the pooled cost. */
  lemma AverageIsCostPerShare(pool: Pool, leg: Leg)
    requires Step(pool, leg).Stepped?
    ensures var r := Step(pool, leg);
            (r.note.Accumulate? || r.note.Reduce?) ==> r.note.avg * r.pool.qty as real == r.pool.cost
  {
  }

  /** From a pool that is not negative, a trade of positive quantity never
      divides by zero, and every average it records is taken over a positive
      pooled quantity. */
  lemma PositiveTradeKeepsDivisionSafe(pool: Pool, leg: Leg)
    requires pool.qty >= 0 && leg.q > 0
    ensures Step(pool, leg).Stepped?
    ensures Step(pool, leg).pool.qty >= 0
    ensures !Step(pool, leg).note.Close? ==> Step(pool, leg).pool.qty > 0
  {
  }

  /** Outcome of a whole summary pass: the final pool and every annotation, or
      a failure together with the annotations written before it. */
  datatype Outcome = Finished(pool: Pool, notes: seq<Note>) | Failed(notes: seq<Note>)

  /** Continues a pass by one more trade. */
  function Next(out: Outcome, leg: Leg): (r: Outcome) {
    match out
    case Failed(_) => out
    case Finished(pool, done) =>
      match Step(pool, leg)
      case DivByZero => Failed(done)
      case Stepped(next, note) => Finished(next, done + [note])
  }

  /** The summary pass over `legs` in order, starting from the empty pool. */
  function Run(legs: seq<Leg>): (r: Outcome)
    ensures r.Finished? ==> |r.notes| == |legs|
    ensures r.Failed? ==> |r.notes| < |legs|
    decreases |legs|
  {
    if legs == [] then Finished(Zero, [])
    else Next(Run(legs[..|legs| - 1]), legs[|legs| - 1])
  }

  /** One past the position of the last close among `notes`, or 0 when none. */
  function LastClose(notes: seq<Note>): (k: nat)
    ensures k <= |notes|
    ensures k > 0 ==> notes[k - 1].Close?
    ensures forall i :: k <= i < |notes| ==> !notes[i].Close?
  {
    if notes == [] then 0
    else if notes[|notes| - 1].Close? then |notes|
    else LastClose(notes[..|notes| - 1])
  }

  /** The pass over one more trade of the log is one more `Next`. */
  lemma RunExtends(legs: seq<Leg>, i: nat)
    requires i < |legs|
    ensures Run(legs[..i + 1]) == Next(Run(legs[..i]), legs[i])
  {
    assert legs[..i + 1][..i] == legs[..i];
  }

  /** Once the pass fails, later trades do not change the outcome. */
  lemma {:induction false} FailureIsFinal(legs: seq<Leg>, k: nat)
    requires k <= |legs| && Run(legs[..k]).Failed?
    ensures Run(legs) == Run(legs[..k])
    decreases |legs| - k
  {
    if k < |legs| {
      var longer := legs[..k + 1];
      assert longer[..k] == legs[..k];
      assert Run(longer) == Run(legs[..k]);
      FailureIsFinal(legs, k + 1);
    } else {
      assert legs[..k] == legs;
    }
  }

  /** The pool at the end of a pass is the plain net total of the trades after
      the last close: closes reset the pool and nothing else does. */
  lemma {:induction false} PoolIsNetSinceLastClose(legs: seq<Leg>)
    requires Run(legs).Finished?
    ensures Run(legs).pool == Net(legs[LastClose(Run(legs).notes)..])
    decreases |legs|
  {
    if legs != [] {
      var n := |legs| - 1;
      var init := legs[..n];
      var r := Run(legs);
      var r0 := Run(init);
      assert r0.Finished?;
      PoolIsNetSinceLastClose(init);
      var s := Step(r0.pool, legs[n]);
      assert r.notes == r0.notes + [s.note];
      assert r.notes[..n] == r0.notes;
      if !s.note.Close? {
        var k := LastClose(r0.notes);
        assert LastClose(r.notes) == k;
        assert legs[k..][..|legs[k..]| - 1] == init[k..];
      }
    }
  }

  /** Every quantity is positive. The entry form does not enforce this: it
      accepts 0 and negative integers (main.py:114-121). */
  ghost predicate PositiveQuantities(legs: seq<Leg>) {
    forall i :: 0 <= i < |legs| ==> legs[i].q > 0
  }

  /** With positive quantities the pass never divides by zero, the pooled
      quantity never goes negative, an empty pool carries no cost, and the
      pool is empty exactly at the start and right after a close. */
  lemma {:induction false} PoolStaysConsistent(legs: seq<Leg>)
    requires PositiveQuantities(legs)
    ensures Run(legs).Finished?
    ensures Run(legs).pool.qty >= 0
    ensures Run(legs).pool.qty == 0 ==> Run(legs).pool.cost == 0.0
    ensures Run(legs).pool.qty == 0 <==> legs == [] || Run(legs).notes[|legs| - 1].Close?
    decreases |legs|
  {
    if legs != [] {
      var n := |legs| - 1;
      var init := legs[..n];
      assert PositiveQuantities(init) by {
        forall i | 0 <= i < |init| ensures init[i].q > 0 { assert init[i] == legs[i]; }
      }
      PoolStaysConsistent(init);
      assert legs[n].q > 0;
    }
  }

  /** Puts the annotations of an earlier, closed part of the log in front of
      the outcome of a pass over the rest. */
  function Resume(earlier: seq<Note>, rest: Outcome): (r: Outcome) {
    match rest
    case Finished(pool, notes) => Finished(pool, earlier + notes)
    case Failed(notes) => Failed(earlier + notes)
  }

  /** After the log empties the pool, the trades before that point have no
      influence on anything computed later: the pass over the whole log is the
      pass over the remainder alone, after the earlier annotations. */
  lemma {:induction false} ClosedHistoryIsForgotten(closed: seq<Leg>, rest: seq<Leg>)
    requires Run(closed).Finished? && Run(closed).pool == Zero
    ensures Run(closed + rest) == Resume(Run(closed).notes, Run(rest))
    decreases |rest|
  {
    if rest == [] {
      assert closed + rest == closed;
    } else {
      var n := |rest| - 1;
      var all := closed + rest;
      assert all[..|all| - 1] == closed + rest[..n];
      assert all[|all| - 1] == rest[n];
      ClosedHistoryIsForgotten(closed, rest[..n]);
      ResumeNext(Run(closed).notes, Run(rest[..n]), rest[n]);
    }
  }

  lemma ResumeNext(earlier: seq<Note>, out: Outcome, leg: Leg)
    ensures Next(Resume(earlier, out), leg) == Resume(earlier, Next(out, leg))
  {
    match out
    case Failed(_) =>
    case Finished(pool, notes) =>
      match Step(pool, leg)
      case DivByZero =>
      case Stepped(next, note) =>
        assert earlier + (notes + [note]) == (earlier + notes) + [note];
  }

  /** Buying 1000 at 10 with 5.1 in fees, then selling 1000 at 11 with 10.61
      in fees: an average cost of 10.0051, then a close with a profit of 984.29. */
  lemma BuyThenSellAll()
    ensures Run([Leg(true, 10.0, 1000, 5.1), Leg(false, 11.0, 1000, 10.61)])
            == Finished(Zero, [Accumulate(10.0051), Close(984.29)])
  {
    var legs := [Leg(true, 10.0, 1000, 5.1), Leg(false, 11.0, 1000, 10.61)];
    assert legs[..0] == [];
    assert Step(Zero, legs[0]) == Stepped(Pool(1000, 10005.1), Accumulate(10.0051));
    RunExtends(legs, 0);
    assert Step(Pool(1000, 10005.1), legs[1]) == Stepped(Zero, Close(984.29));
    RunExtends(legs, 1);
    assert legs[..2] == legs;
  }

  /** A buy of zero shares on an empty pool raises instead of annotating. */
  lemma ZeroShareBuyFails(p: real, fee: real)
    ensures Run([Leg(true, p, 0, fee)]) == Failed([])
  {
    assert [Leg(true, p, 0, fee)][..0] == [];
  }
}
