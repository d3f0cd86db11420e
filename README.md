# coin-trading: order execution and order summary

This project models two pieces of the trading logic in `coin-trading`, a
React/RxJS front end for simulated coin trading.

- **Order execution** (`executeOrder$`). Each pending order is compared with
  every price tick of its symbol. The order fires at the first tick that meets
  its trigger, either "price at or above the target" or "price at or below the
  target". BUY and SELL play no part in this. On firing the watcher reports an
  `ORDER_DONE` with that tick's price and then signals its `terminate`
  subject, so later ticks are never looked at. The global `cancelEventMap`
  stores every order's terminate handle.
- **Order summary** (`getSummary$`). The orders pushed into `orderInput$` feed
  several running scans:
  - the count of orders fed;
  - the BUY and SELL quantities;
  - the BUY and SELL amounts, each order contributing `quantity × (actualPrice ?? 0)`;
  - the FIFO settled cost basis. A pool starts at the SELL total and walks
    the BUY orders oldest first. Each BUY takes `min(pool, quantity)` shares
    at its own price.

  Stocks in hand is BUY quantity less SELL quantity. Stock amount is BUY
  amount less settled.
- **The `OrderSummary` component.** On each store update it filters the DONE
  orders and skips the first `totalOrder` of them, the number already fed. It
  feeds the rest in list order. It shows the four figures with 0 for anything
  missing, and profit/loss is SELL amount less settled. An earlier version of
  the component is still in the file as a comment. It computed the same
  figures in one batch with `reduce`, and it is the reference the streaming
  version is proved against.

Modules:

- `Orders`: the order record, the two filters and the two sums.
- `OrderExecution`:
  - the "fires?" predicate and the first-firing function;
  - a `Watcher` class with a `done` flag and `OnTick`;
  - a `Registry` class that holds `cancelEventMap`.
- `OrderSummaryStream`:
  - the settlement scan and the scan state;
  - the batch totals and the lemmas that tie the two together;
  - an `Aggregator` class with one field per scan, whose `Feed` updates them
    in place.
- `OrderSummaryComponent`: the cursor effect, the replay of store updates,
  the batch reduce and the display.

Quantities are `nat` and prices are `int`. The code uses JavaScript numbers
for both. Because the model uses exact integers instead, its equations hold
exactly; floating-point rounding is listed under "## Left out". The price feed is a finite
sequence of ticks given as a parameter. The `ORDER_DONE` dispatch is a
returned event value.

Two behaviours of the code are easy to misread, and the model follows the
code:

- The watcher never removes its own entry from `cancelEventMap`. The `delete`
  at src/observables/order.ts:22-26 sits in a pipe that nobody subscribes
  to, so the map is only ever set.
- There is no incremental settlement queue. Each new SELL total starts a
  fresh settlement scan over every BUY that `shareReplay` has buffered. A new
  BUY advances the latest scan by one step. `Aggregator.Feed` does this, and
  `RunMeansTotals` proves that the result always equals the full FIFO fold of
  all BUYs against the whole SELL quantity.

Cursor feeding is proved correct when the store's list of DONE orders grows
at the end (`CursorReplay`). `ReplayNeedsGrowthAtEnd` shows that it can fail
otherwise: one order is summarised twice and another is never summarised. Trigger orders are fulfilled in the order the prices reach
them, not in the order they were placed. So if the store keeps orders in
placement order, an order placed earlier but fulfilled later breaks the
condition, and this is the ordinary case rather than a corner case. The store
reducer that fixes the list order is not part of this model, so the model
states the condition as a precondition; it does not offer a corrected
component (see "## Left out").
src/types/order.ts is not part of this model. The order's fields are taken
from their uses in the two core files.

## Model

| member | source | states |
|---|---|---|
| OrderExecution.Fires | src/observables/order.ts:31-46 | The definition the contracts below are stated in: a tick fires a MORE_THAN_OR_EQUAL order when the price is at or above the target, and a LESS_THAN_OR_EQUAL order when it is at or below. The side is not an argument. |
| OrderExecution.Evaluate | src/observables/order.ts:30-56 | A tick produces `ORDER_DONE` exactly when `Fires(trigger, target, price)` holds, that is `price >= target` for MORE_THAN_OR_EQUAL or `price <= target` for LESS_THAN_OR_EQUAL, whatever the side. The event carries the order id and the tick's price. |
| OrderExecution.FirstFiring | src/observables/order.ts:28-56 | The result is the index of a tick that fires with no earlier tick firing, or None exactly when no tick in the sequence fires. |
| OrderExecution.Emitted | src/observables/order.ts:28-56 | What a watcher dispatches over a tick sequence: at most one event, none exactly when no tick fires, and a single event that is `ORDER_DONE` for the order's id at the price of the first firing tick. |
| OrderExecution.FirstFiringExtend | src/observables/order.ts:28-56 | Once an order has fired, a further tick does not change where it fired. Until then, one more tick fires it exactly when that tick meets the trigger. |
| OrderExecution.ScenarioFiresOnce | src/observables/order.ts:31-42 | An order with "price >= 100" over ticks 90, 95, 101, 105 produces exactly one event, at price 101. |
| OrderExecution.Watcher.constructor | src/observables/order.ts:21 | A new terminate handle belongs to its order and has not been signalled. |
| OrderExecution.Watcher.Terminate | src/observables/order.ts:42 | `terminate.next()` leaves the watcher done. |
| OrderExecution.Watcher.OnTick | src/observables/order.ts:29-56 | A done watcher ignores the tick and produces nothing. Otherwise the result is `Evaluate(order, price)`, and the watcher becomes done exactly when the tick fires. |
| OrderExecution.Watch | src/observables/order.ts:28-56 | Over a whole tick sequence a fresh watcher produces `Emitted(order, ticks)`: at most one event, at the first firing tick. It ends done exactly when some tick fired. A watcher that was already done produces nothing. |
| OrderExecution.Registry.constructor | src/observables/order.ts:18 | `cancelEventMap` starts empty. |
| OrderExecution.Registry.ExecuteOrder | src/observables/order.ts:20-57 | The map afterwards is the old map with the order's id set to this call's fresh terminate handle, and every other key unchanged. Nothing is deleted when the order fires. At most one event, the one `Emitted` gives, is produced, and the handle ends done exactly when the order fired. |
| Orders.OfType | src/observables/order.ts:62-68 | The side filter over the fed orders, in feeding order. Its contract only bounds the length; what it keeps is stated by `Orders.OfTypeMembers`. |
| Orders.Confirmed | src/components/OrderSummary.tsx:74-75 | The DONE filter, in store order. Its contract only bounds the length; what it keeps is stated by `Orders.ConfirmedMembers`. |
| Orders.Amount | src/observables/order.ts:89-99 | The amount one order contributes, `quantity × (actualPrice ?? 0)`, as both amount reducers add it. It is a definition; the lemmas below state its properties. |
| Orders.SumQuantity | src/observables/order.ts:69-78 | The quantity reducer `acc + val.quantity` folded from 0 over a sequence. It is a definition; its value on the scans is stated by `OrderSummaryStream.RunMeansTotals`. |
| Orders.SumAmount | src/observables/order.ts:89-99 | The amount reducer folded from 0 over a sequence. It is a definition; `Orders.NoQuantityNoAmount` and `Orders.AmountNonNegative` state its properties. |
| Orders.OfTypeMembers | src/observables/order.ts:62-68 | The BUY (or SELL) stream holds exactly the fed orders of that side. |
| Orders.ConfirmedMembers | src/components/OrderSummary.tsx:74-75 | The DONE filter keeps exactly the orders whose status is DONE. |
| Orders.NoQuantityNoAmount | src/observables/order.ts:89-99 | Orders whose quantities sum to 0 contribute amount 0, whatever their prices. |
| Orders.AmountNonNegative | src/observables/order.ts:89-99 | With non-negative prices every amount total is non-negative. |
| OrderSummaryStream.SettleStep | src/observables/order.ts:104-119 | An empty pool returns the accumulator unchanged. Otherwise the pool never grows: it drops by exactly `min(pool, quantity)` and stays a `nat`. `settled` grows by the shares taken times the BUY's own actual price (or 0). |
| OrderSummaryStream.SettleFold | src/observables/order.ts:100-123 | After the scan over the BUYs the pool holds `max(0, start - sum of BUY quantities)`. |
| OrderSummaryStream.FifoConsumption | src/observables/order.ts:103-121 | BUY number i is charged `min(its quantity, whatever the older BUYs left in the pool) × its price`. This is FIFO cost-basis matching. |
| OrderSummaryStream.ExhaustedPoolStaysPut | src/observables/order.ts:106 | Once the pool is 0, further BUYs leave the accumulator as it is. |
| OrderSummaryStream.SettledBounds | src/observables/order.ts:103-121 | With non-negative prices, `settled` never decreases along the scan and grows by at most the amounts of the BUYs scanned. |
| OrderSummaryStream.SettledMonotoneInPool | src/observables/order.ts:100-121 | With non-negative prices, a scan over the same BUYs from a larger pool settles at least as much. |
| OrderSummaryStream.SettledNeverDecreases | src/observables/order.ts:100-126 | With non-negative prices, the settled cost basis never decreases from one feed to the next. A BUY adds the shares it takes from the pool, and a SELL re-runs the scan from a larger pool. |
| OrderSummaryStream.SettledGrowsOnBuy | src/observables/order.ts:102-121 | A BUY at a non-negative price does not lower the settled cost basis. |
| OrderSummaryStream.NoSellsNothingSettled | src/observables/order.ts:100-126 | With a pool of 0 and no SELLs, nothing is ever settled. |
| OrderSummaryStream.CoveredBuysFullySettled | src/observables/order.ts:103-121 | When the pool covers every BUY quantity, each BUY is settled in full and `settled` is the whole BUY amount. |
| OrderSummaryStream.SummaryOf | src/observables/order.ts:133-151 | The four figures of `summary$` computed from the batch totals of the orders fed. It is a definition; `OrderSummaryStream.Aggregator.Snapshot` proves the scans produce it. |
| OrderSummaryStream.SummaryBounds | src/observables/order.ts:100-131 | With non-negative prices, `0 <= settled <= BUY amount`, so stock amount is at least 0, and the SELL amount is at least 0. No SELLs means settled is 0. SELLs of at least the BUY quantity settle the whole BUY amount and leave stock amount at 0. |
| OrderSummaryStream.ScenarioSummary | src/observables/order.ts:59-153 | BUY 10 at 100, BUY 5 at 110, SELL 12 at 120 gives 3 stocks in hand, stock amount 330, SELL amount 1440 and settled 1220 (10×100 + 2×110). The raw totals are BUY quantity 15, SELL quantity 12 and BUY amount 1550. |
| OrderSummaryStream.ScenarioScans | src/observables/order.ts:100-126 | The same orders fed through the scans: the count is 3, and the settlement scan re-run at the SELL ends with an empty pool and settled 1220. |
| OrderSummaryStream.ScenarioBuyOnly | src/observables/order.ts:59-153 | A single BUY of 10 at 50 with no SELLs gives 10 stocks in hand, stock amount 500, and SELL amount and settled both 0. |
| OrderSummaryStream.FeedBuy | src/observables/order.ts:62-73 | One more BUY extends the BUY stream and the BUY totals by that order and leaves the SELL side unchanged. |
| OrderSummaryStream.FeedSell | src/observables/order.ts:66-77 | One more SELL extends the SELL stream and the SELL totals by that order and leaves the BUY side unchanged. |
| OrderSummaryStream.SettleStepAfter | src/observables/order.ts:102-121 | A BUY appended to the replayed stream advances a running settlement scan by exactly one step. |
| OrderSummaryStream.ReplaySettlement | src/observables/order.ts:100-123 | Re-running the scan over the buffered BUYs from a pool of the new SELL total gives the settlement fold. The pool left is `max(0, SELL total - BUY quantity)`. |
| OrderSummaryStream.Step | src/observables/order.ts:60-126 | How the scans respond to one `orderInput$.next(o)`. The count rises by 1. A BUY is buffered, adds to the BUY totals and advances the latest settlement scan. A SELL adds to the SELL totals and starts a fresh settlement scan over the buffered BUYs. It is a definition; `OrderSummaryStream.StepMatchesBatch` states what it preserves. |
| OrderSummaryStream.Run | src/observables/order.ts:60-126 | The scans after feeding a sequence of orders from their seeds. It is a definition; `OrderSummaryStream.RunMeansTotals` states its value. |
| OrderSummaryStream.RunAppend | src/observables/order.ts:60-126 | Feeding one more order takes exactly one step of every scan. |
| OrderSummaryStream.RunCount | src/observables/order.ts:61 | The count scan rises by 1 for each order fed, whatever its side, so it equals the number of orders fed. |
| OrderSummaryStream.StepMatchesBatch | src/observables/order.ts:60-126 | A step from the batch totals of some orders gives the batch totals of those orders plus one. |
| OrderSummaryStream.RunMeansTotals | src/observables/order.ts:60-126 | After any orders have been fed, the scans hold their count, their BUYs in order, the quantity and amount sums of each side, and the FIFO fold of all BUYs against the whole SELL total. This holds although a BUY only advances the latest settlement scan. |
| OrderSummaryStream.Aggregator.constructor | src/observables/order.ts:60-126 | Every scan starts at its seed: count 0, no buffered BUYs, zero totals, and a settlement scan with pool 0. |
| OrderSummaryStream.Aggregator.Feed | src/observables/order.ts:60-126 | `orderInput$.next(o)` moves the fields to `Step(old state, o)`. A BUY is buffered, adds to the BUY totals and advances the settlement scan. A SELL adds to the SELL totals, and the settlement scan is re-run from the new SELL total. The count rises by 1 either way. |
| OrderSummaryStream.Aggregator.Snapshot | src/observables/order.ts:80-87 | When the scans hold the orders fed, the summary is their batch summary. Stocks in hand is BUY quantity less SELL quantity, and stock amount is BUY amount less settled. |
| OrderSummaryComponent.Splice | src/components/OrderSummary.tsx:76 | `splice(start)` on a fresh array: the array is its first `start` elements followed by the result, and the result has `max(0, length - start)` elements, so it is empty past the end. |
| OrderSummaryComponent.Remaining | src/components/OrderSummary.tsx:74-76 | The DONE orders are the first `cursor` of them followed by the result. When the cursor is at or past their number, the result is empty. |
| OrderSummaryComponent.RemainingAreDone | src/components/OrderSummary.tsx:74-76 | Only DONE orders from the store are fed. |
| OrderSummaryComponent.AfterUpdate | src/components/OrderSummary.tsx:72-78 | The orders fed after the effect runs once: those fed before, followed by the DONE orders after the cursor. It is a definition; `OrderSummaryComponent.OnOrdersChange` proves that the effect does this. |
| OrderSummaryComponent.FeedAll | src/components/OrderSummary.tsx:77 | Feeding the remaining orders one at a time moves the scans from the orders fed to those orders followed by the remaining ones. |
| OrderSummaryComponent.OnOrdersChange | src/components/OrderSummary.tsx:72-78 | The effect feeds exactly the DONE orders after the cursor, in store order. Afterwards the cursor equals the number of DONE orders if it was at most that number. If it was at least that number, nothing changes. |
| OrderSummaryComponent.CursorReplay | src/components/OrderSummary.tsx:72-78 | If the DONE list only grows at the end, running the effect on any run of store states feeds each DONE order of the last state exactly once, in store order. |
| OrderSummaryComponent.ReplayNeedsGrowthAtEnd | src/components/OrderSummary.tsx:72-78 | Suppose the order listed first becomes DONE after the one listed second. Then the DONE list does not grow at the end, the second order is fed twice, and the first is never fed. |
| OrderSummaryComponent.BatchSummary | src/components/OrderSummary.tsx:15-51 | The commented-out batch computation: filter DONE, split by side, reduce each side, and run the settlement reduce over the BUYs. It equals `SummaryOf` of the DONE orders in store order, the figures the stream reaches once it has been fed those orders. |
| OrderSummaryComponent.SummarizeUpdates | src/components/OrderSummary.tsx:13-64 | Take a fresh `getSummary$()` and any run of store states whose DONE list grows at the end. The summary the component ends with equals the batch `reduce` of the commented-out version over the last state. |
| OrderSummaryComponent.Render | src/components/OrderSummary.tsx:80-92 | With no summary every figure is 0. Otherwise the figures are the summary's, and profit/loss is SELL amount less settled. The average cell takes its zero branch exactly when no stocks are held, and otherwise is stock amount divided by stocks. |
| OrderSummaryComponent.ScenarioDisplay | src/components/OrderSummary.tsx:80-92 | In the worked example the display shows 3 stocks in hand, stock amount 330, an average of 330 over 3, and profit/loss 1440 − 1220 = 220. |
| OrderSummaryComponent.RenderedProfitLoss | src/components/OrderSummary.tsx:80-92 | With non-negative prices the shown stock amount is at least 0. Profit/loss is SELL amount less the cost basis of the shares sold. It is 0 with no SELLs, and SELL amount less BUY amount once every bought share has been sold. |

## Left out

- RxJS plumbing (`Subject`, `shareReplay`, `mergeMap`, `combineLatestWith`):
  - The model gives the scan values after each feed completes. Intermediate
    and glitch emissions of `summary$` are not modelled.
  - The older `mergeMap` inner scans that keep re-emitting on each new BUY are
    not modelled. Only the latest scan, whose value is emitted last, is kept.
- The `startWith(0)` artefact is not modelled: stocks in hand and stock amount
  show 0 until the first BUY arrives (src/observables/order.ts:80-87, 127-131).
  `Aggregator.Snapshot` gives the values the scans define.
- `getPrice$` is not modelled: its transport, errors and retry policy are
  external. The price feed is a finite sequence of ticks.
- Redux dispatch and `new Date()`:
  - `ORDER_DONE` is returned as an event value, and its `time` field is
    dropped.
  - The store reducer that marks the order DONE is not part of this model.
- React is not modelled: `useRef`, `useObservable`, `useEffect` scheduling,
  rendering and `memo`. The cursor is read from the scan state that is
  current when the effect runs.
- Floating point: prices and quantities are exact integers, and quantities are
  non-negative. Fractional and negative quantities are not modelled.
- Render: the average-price division is left unevaluated, as
  `PerShare(amount, stocks)`. Only its zero guard is modelled, because the
  code divides JavaScript numbers.
- OnOrdersChange: it is proved to summarise each DONE order once only when the
  DONE list grows at the end (`CursorReplay`). When an earlier-listed order
  becomes DONE after a later-listed one, it double-counts
  (`ReplayNeedsGrowthAtEnd`). No corrected feeding is modelled: the store's
  list order is not part of this model, and any fix feeds BUYs out of store
  order, which changes the FIFO settled figure of the batch computation.
- Concurrency and a cancel API are not modelled. Nothing in the core calls the
  stored terminate handles, so `Registry` only stores them.
