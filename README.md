# stock-calc: the `StockCalculator` core in Dafny

This project models the calculation core of the stock-trading calculator:
the `StockCalculator` class. It keeps a rate table and a chronological trade
log, and has three operations:

- **update_rates** parses four strings one after the other and stores them as
  the commission rate, the minimum commission, the stamp-tax rate and the
  transfer-fee rate.
- **add_trade** prices a trade and appends its record to the log. The gross
  amount is price × quantity. Commission is the rate × amount, but never less
  than the minimum. The transfer fee is amount × transfer rate. Stamp tax is
  charged only when the side is `"sell"`. The total fee is the sum of the three.
- **get_portfolio_summary** runs one pass over the whole log from an empty
  diluted-cost pool. A buy adds its quantity, and its amount plus fee, to the
  pool. Any other side removes its quantity, and its amount minus fee. When a
  sell leaves the pooled quantity at 0 or below, the pool is reset to empty.
  Each record's annotation is overwritten: accumulate (average cost), reduce
  (average cost) or close (profit or loss = minus the remaining pooled cost).
  The pass returns the pooled quantity and cost.

Files:

- `Wrappers.dfy`: `Option`.
- `Orders.dfy`: the side names `"buy"` / `"sell"`.
- `FeeEngine.dfy`: the rate table, the default rates and the fee arithmetic,
  as pure functions with lemmas.
- `DilutedPool.dfy`: the summary pass as a pure fold (`Step`, `Run`), a plain
  running total (`Net`) as an independent reference, and the lemmas that
  relate them.
- `Calculator.dfy`: the calculator as classes. `Trade` is an object whose
  annotation `desc` is the only mutable field. `add_trade` returns the same
  object the log holds, so later summaries change what the caller sees.
  `StockCalculator` holds `transactions: seq<Trade>` and `rates`. Its methods
  are proved against the functions above.

Modelling choices:

- Prices, fees and rates are `real`. Quantities are `int`.
- The side stays a string, as in the source. The fee code taxes only the
  exact side `"sell"`. The summary treats every side other than `"buy"` as a
  sell. The pool's view of a trade (`Leg`) keeps only "is it a buy".
- An annotation is the datatype `Note`: `Empty` (the initial `""`),
  `Accumulate(avg)`, `Reduce(avg)` or `Close(pl)`. It carries the exact value,
  not the formatted text.
- Python's `float` parsing is the parameter `parse: string -> Option<real>`.
- A buy that leaves the pooled quantity at exactly 0 makes the average-cost
  division raise `ZeroDivisionError`. This happens with a zero-share buy on an
  empty pool, or with negative quantities. The summary then returns `None`.
  The annotations of the earlier trades have already been rewritten; that
  trade and the later ones keep their old annotation.

Behaviour worth noting:

- One pool is kept for the whole log, whatever each trade's `code`.
- `update_rates` is not atomic (main.py:14-17). Rates parsed before a failing
  one keep their new values.
- Annotations are written by the summary pass (main.py:47-57), not by
  `add_trade`, which stores an empty one (main.py:34) and returns the record.
- The close annotation is minus the pooled cost after the sell (main.py:53):
  the net proceeds minus the cost the pool carried before the sell.

## Model

| member | source | states |
|---|---|---|
| FeeEngine.ComputeFees | main.py:22-27 | amount is price × quantity; commission is at least the rate × amount and at least the minimum, and equals one of them; it is exactly the minimum when rate × amount does not exceed it; transfer fee is amount × transfer rate; stamp tax is amount × tax rate on `"sell"` and 0 on any other side; total is the sum of the three |
| FeeEngine.SellPaysStampTaxOnTop | main.py:23-27 | the same trade as a sell and as a buy has the same amount, commission and transfer fee; the buy pays no tax; the sell's total is the buy's plus amount × tax rate |
| FeeEngine.FeesAreNonNegative | main.py:23-27 | with non-negative rates, price and quantity, no fee is negative and the total fee is at least the minimum commission |
| DilutedPool.Step | main.py:44-57 | one loop iteration: raises exactly when a buy leaves the pooled quantity at 0; a buy is annotated accumulate, another side reduce or close; close happens exactly when a non-buy leaves the quantity ≤ 0, resets the pool to (0, 0) and records the net proceeds minus the carried cost; otherwise the pool moves by the trade's signed quantity and cost, and a reduce leaves a positive quantity |
| DilutedPool.PositiveTradeKeepsDivisionSafe | main.py:44-57 | from a non-negative pool, a trade of positive quantity never raises, leaves a non-negative quantity, and every average it records divides by a positive quantity |
| DilutedPool.AverageIsCostPerShare | main.py:47-57 | the average in an accumulate or reduce annotation times the pooled quantity is the pooled cost |
| DilutedPool.Run | main.py:39-58 | a finished pass annotates every trade; a failed pass annotates a strict prefix |
| DilutedPool.FailureIsFinal | main.py:43-47 | once the pass raises, later trades do not change the outcome |
| DilutedPool.PoolIsNetSinceLastClose | main.py:41-55 | the final pool equals the plain total over the trades after the last close: buy quantities minus other quantities, and Σ(amount + fee) over buys minus Σ(amount − fee) over the rest |
| DilutedPool.PoolStaysConsistent | main.py:41-57 | with every quantity positive the pass never raises, the pooled quantity is never negative, an empty pool has zero cost, and the pool is empty exactly for an empty log or right after a close |
| DilutedPool.ClosedHistoryIsForgotten | main.py:41-58 | once the log reaches an empty pool, the pass over the whole log is the earlier annotations followed by the pass over the rest alone |
| DilutedPool.ZeroShareBuyFails | main.py:44-47 | a zero-share buy on an empty pool raises and annotates nothing |
| DilutedPool.BuyThenSellAll | main.py:43-57 | buying 1000 at 10 with fee 5.1 and then selling them at 11 with fee 10.61 gives an average of 10.0051, then a close with profit 984.29 and an empty pool |
| Calculator.Trade.constructor | main.py:29-35 | a record holds the given code, name, side, price, quantity and fee breakdown, with an empty annotation |
| Calculator.StockCalculator.constructor | main.py:6-10 | a new calculator has an empty log and the default rates 0.00025, 5.0, 0.00001, 0.0005 |
| Calculator.StockCalculator.UpdateRates | main.py:12-20 | succeeds exactly when all four strings parse; the third argument goes to the tax rate and the fourth to the transfer rate; each rate holds its new value when it and every earlier one parsed, and its old value otherwise |
| Calculator.StockCalculator.AddTrade | main.py:22-37 | appends exactly one fresh record and leaves the earlier ones in place; the record holds the inputs and the fees computed with the current rates; its annotation is empty; it is the record returned |
| Calculator.SummaryStep | main.py:44-57 | one iteration on a trade object performs `Step`: it writes the annotation and returns the new pool, or reports the division by zero and leaves the record untouched |
| Calculator.StockCalculator.GetPortfolioSummary | main.py:39-58 | returns the final pool of `Run` over the log, or `None` exactly when `Run` fails; the annotations of the processed trades are those of `Run`, the rest are unchanged; the log itself is not changed |
| Calculator.SummaryIsIdempotent | main.py:39-58 | two summaries in a row return the same result and leave exactly the annotations a single summary leaves |
| Calculator.DefaultRatesRoundTrip | main.py:10-58 | with the default rates, buy 1000 at 10 then sell 1000 at 11: fees 5.1 and 10.61, annotations accumulate 10.0051 and close 984.29, and an empty pool |

## Left out

- The Flet user interface (`main`, `create_card`, the table, dashboard and
  detail views, the input handler and `ft.app`): presentation over a library
  that is not part of this model.
- Floating-point rounding and non-finite values: all arithmetic is exact over
  `real`, so the model has no infinity or NaN. Python's `float()` accepts
  "inf" and "nan", which `parse` cannot return, and `max` with a NaN
  commission (main.py:24) yields NaN.
- The `.3f` / `.2f` text of the annotations and the labels in front of them:
  an annotation carries its exact value instead.
- Python's `float()` string parsing: abstracted as the `parse` parameter of
  `UpdateRates`.
- The `portfolio` dictionary created by `__init__`: nothing ever reads or
  writes it.
- The input handler's catch-all `except` that prints the error: it is error
  logging in the interface.
