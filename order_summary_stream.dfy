/** The summary aggregator (`getSummary$`): fulfilled orders pushed into
    `orderInput$` are folded into running totals, and the settled amount (the
    cost basis of the shares sold) is the FIFO fold of the BUY orders against
    a pool holding the total SELL quantity. */
module OrderSummaryStream {
  import opened Orders

  /** The accumulator `{ sellQty, settled }` of the settlement scan: the sell
      quantity not yet matched with a BUY, and the cost of what was matched. */
  datatype SettleAcc = SettleAcc(sellQty: nat, settled: int)

  /** One step of the settlement scan over a BUY order: an empty pool leaves the
      accumulator alone; otherwise the BUY takes `min(pool, quantity)` shares
      out of the pool, valued at the BUY's own actual price. */
  function SettleStep(acc: SettleAcc, val: Order): (r: SettleAcc)
    ensures acc.sellQty == 0 ==> r == acc
    ensures r.sellQty <= acc.sellQty
    ensures acc.sellQty - r.sellQty == Min(acc.sellQty, val.quantity)
    ensures r.settled == acc.settled + (acc.sellQty - r.sellQty) * ActualPriceOrZero(val)
  {
    if acc.sellQty == 0 then acc
    else
      var qty := if acc.sellQty < val.quantity then acc.sellQty else val.quantity;
      var left := acc.sellQty - val.quantity;
      var sellQtyLeft := if left < 0 then 0 else left;
      SettleAcc(sellQtyLeft, acc.settled + qty * ActualPriceOrZero(val))
  }

  /** The settlement scan over the BUY orders, oldest first, from `init`. What
      is left in the pool is whatever the BUY quantities could not absorb. */
  function SettleFold(buys: seq<Order>, init: SettleAcc): (r: SettleAcc)
    ensures r.sellQty == Max(0, init.sellQty - SumQuantity(buys))
  {
    if buys == [] then init
    else SettleStep(SettleFold(buys[..|buys| - 1], init), buys[|buys| - 1])
  }

  /** FIFO pricing: BUY number `i` is charged for exactly the shares of the
      pool that the older BUYs left over (at most its own quantity), at its own
      price. */
  lemma FifoConsumption(buys: seq<Order>, init: SettleAcc, i: nat)
    requires i < |buys|
    ensures SettleFold(buys[..i + 1], init).settled - SettleFold(buys[..i], init).settled ==
              Min(buys[i].quantity, Max(0, init.sellQty - SumQuantity(buys[..i]))) * ActualPriceOrZero(buys[i])
  {
    assert buys[..i + 1][..i] == buys[..i];
  }

  /** Once the pool is empty, further BUYs leave the accumulator unchanged. */
  lemma {:induction false} ExhaustedPoolStaysPut(buys: seq<Order>, more: seq<Order>, init: SettleAcc)
    requires SettleFold(buys, init).sellQty == 0
    ensures SettleFold(buys + more, init) == SettleFold(buys, init)
  {
    if more != [] {
      var most := more[..|more| - 1];
      assert (buys + more)[..|buys + more| - 1] == buys + most;
      assert (buys + more)[|buys + more| - 1] == more[|more| - 1];
      ExhaustedPoolStaysPut(buys, most, init);
    } else {
      assert buys + more == buys;
    }
  }

  /** With non-negative prices the settled amount only grows along the fold,
      and by no more than the amounts of the BUYs folded. */
  lemma {:induction false} SettledBounds(buys: seq<Order>, init: SettleAcc)
    requires NonNegativePrices(buys)
    ensures init.settled <= SettleFold(buys, init).settled <= init.settled + SumAmount(buys)
  {
    if buys != [] {
      var most, last := buys[..|buys| - 1], buys[|buys| - 1];
      assert forall o :: o in most ==> o in buys;
      assert last in buys;
      SettledBounds(most, init);
      var acc := SettleFold(most, init);
      var taken := acc.sellQty - SettleStep(acc, last).sellQty;
      assert 0 <= taken <= last.quantity;
      MulMonotone(taken, last.quantity, ActualPriceOrZero(last));
    }
  }

  /** A larger pool settles at least as much: after every BUY the larger
      pool still holds at least as many shares, so each BUY gives up at least
      as many to it. */
  lemma {:induction false} SettledMonotoneInPool(buys: seq<Order>, p: nat, p': nat)
    requires p <= p' && NonNegativePrices(buys)
    ensures SettleFold(buys, SettleAcc(p, 0)).settled <= SettleFold(buys, SettleAcc(p', 0)).settled
  {
    if buys != [] {
      var most, last := buys[..|buys| - 1], buys[|buys| - 1];
      assert forall o :: o in most ==> o in buys;
      assert last in buys;
      SettledMonotoneInPool(most, p, p');
      var acc, acc' := SettleFold(most, SettleAcc(p, 0)), SettleFold(most, SettleAcc(p', 0));
      assert acc.sellQty <= acc'.sellQty;
      var taken := acc.sellQty - SettleStep(acc, last).sellQty;
      var taken' := acc'.sellQty - SettleStep(acc', last).sellQty;
      assert 0 <= taken <= taken';
      MulMonotone(taken, taken', ActualPriceOrZero(last));
    }
  }

  /** The settled cost basis never decreases from one feed to the next: a
      BUY adds the shares it takes from the pool, and a SELL re-runs the scan
      from a larger pool. */
  lemma SettledNeverDecreases(fed: seq<Order>, o: Order)
    requires NonNegativePrices(fed + [o])
    ensures TotalSettled(fed) <= TotalSettled(fed + [o])
  {
    assert forall x :: x in fed ==> x in fed + [o];
    assert o in fed + [o];
    OfTypeMembers(fed, Buy);
    if o.orderType == Buy {
      SettledGrowsOnBuy(fed, o);
    } else {
      FeedSell(fed, o);
      SettledMonotoneInPool(OfType(fed, Buy), TotalSellQuantity(fed), TotalSellQuantity(fed + [o]));
    }
  }

  /** A BUY advances the settlement scan by one step, adding what it takes. */
  lemma SettledGrowsOnBuy(fed: seq<Order>, o: Order)
    requires o.orderType == Buy && ActualPriceOrZero(o) >= 0
    ensures TotalSettled(fed) <= TotalSettled(fed + [o])
  {
    var buys, init := OfType(fed, Buy), SettleAcc(TotalSellQuantity(fed), 0);
    FeedBuy(fed, o);
    assert TotalSettled(fed + [o]) == SettleFold(buys + [o], init).settled;
    SettleStepAfter(buys, o, init);
    var acc := SettleFold(buys, init);
    var taken := acc.sellQty - SettleStep(acc, o).sellQty;
    MulMonotone(taken, o.quantity, ActualPriceOrZero(o));
    assert SettleStep(acc, o).settled == acc.settled + taken * ActualPriceOrZero(o);
  }

  /** Taking fewer shares at a non-negative price costs no more. */
  lemma MulMonotone(a: int, b: int, c: int)
    requires 0 <= a <= b && c >= 0
    ensures 0 <= a * c <= b * c
  {
  }

  /** Without sells the pool starts empty and nothing is ever settled. */
  lemma {:induction false} NoSellsNothingSettled(buys: seq<Order>)
    ensures SettleFold(buys, SettleAcc(0, 0)) == SettleAcc(0, 0)
  {
    ExhaustedPoolStaysPut([], buys, SettleAcc(0, 0));
    assert [] + buys == buys;
  }

  /** When the pool covers every BUY, each BUY is settled in full. */
  lemma {:induction false} CoveredBuysFullySettled(buys: seq<Order>, init: SettleAcc)
    requires init.sellQty >= SumQuantity(buys)
    ensures SettleFold(buys, init).settled == init.settled + SumAmount(buys)
  {
    if buys != [] {
      var most, last := buys[..|buys| - 1], buys[|buys| - 1];
      CoveredBuysFullySettled(most, init);
      var acc := SettleFold(most, init);
      assert acc.sellQty >= last.quantity;
    }
  }

  /** The totals of `getSummary$` over the orders fed so far, in feeding order. */
  function TotalBuyQuantity(fed: seq<Order>): nat { SumQuantity(OfType(fed, Buy)) }

  function TotalSellQuantity(fed: seq<Order>): nat { SumQuantity(OfType(fed, Sell)) }

  function TotalBuyAmount(fed: seq<Order>): int { SumAmount(OfType(fed, Buy)) }

  function TotalSellAmount(fed: seq<Order>): int { SumAmount(OfType(fed, Sell)) }

  /** The settlement scan over all BUYs with the pool set to the current SELL
      total, as `getSummary$` re-runs it whenever that total changes. */
  function TotalSettled(fed: seq<Order>): int {
    SettleFold(OfType(fed, Buy), SettleAcc(TotalSellQuantity(fed), 0)).settled
  }

  /** The value `summary$` carries. */
  datatype Summary = Summary(
    totalStocksInHand: int,
    totalStockAmount: int,
    totalSellAmount: int,
    totalSettled: int)

  function SummaryOf(fed: seq<Order>): Summary {
    Summary(
      TotalBuyQuantity(fed) - TotalSellQuantity(fed),
      TotalBuyAmount(fed) - TotalSettled(fed),
      TotalSellAmount(fed),
      TotalSettled(fed))
  }

  /** Cost-basis bounds of the summary: with non-negative prices the settled
      amount lies between 0 and the total BUY amount, so the stock amount is
      never negative; no sells means nothing settled; selling at least what
      was bought settles the whole BUY amount. */
  lemma SummaryBounds(fed: seq<Order>)
    requires NonNegativePrices(fed)
    ensures 0 <= SummaryOf(fed).totalSettled <= TotalBuyAmount(fed)
    ensures SummaryOf(fed).totalStockAmount >= 0 && SummaryOf(fed).totalSellAmount >= 0
    ensures TotalSellQuantity(fed) == 0 ==> SummaryOf(fed).totalSettled == 0
    ensures TotalSellQuantity(fed) >= TotalBuyQuantity(fed) ==>
              SummaryOf(fed).totalSettled == TotalBuyAmount(fed) && SummaryOf(fed).totalStockAmount == 0
  {
    var buys, sells := OfType(fed, Buy), OfType(fed, Sell);
    OfTypeMembers(fed, Buy);
    OfTypeMembers(fed, Sell);
    assert NonNegativePrices(buys) && NonNegativePrices(sells);
    AmountNonNegative(sells);
    SettledBounds(buys, SettleAcc(TotalSellQuantity(fed), 0));
    if TotalSellQuantity(fed) == 0 {
      NoSellsNothingSettled(buys);
    }
    if TotalSellQuantity(fed) >= TotalBuyQuantity(fed) {
      CoveredBuysFullySettled(buys, SettleAcc(TotalSellQuantity(fed), 0));
    }
  }

  /** A worked example: BUY 10 at 100, BUY 5 at 110, SELL 12 at 120 leaves 3
      shares in hand; the 12 sold are settled as 10 x 100 + 2 x 110 = 1220. */
  lemma ScenarioSummary(b1: Order, b2: Order, s1: Order)
    requires b1.orderType == Buy && b1.quantity == 10 && b1.actualPrice == Some(100)
    requires b2.orderType == Buy && b2.quantity == 5 && b2.actualPrice == Some(110)
    requires s1.orderType == Sell && s1.quantity == 12 && s1.actualPrice == Some(120)
    ensures SummaryOf([b1, b2, s1]) == Summary(3, 330, 1440, 1220)
    ensures TotalBuyQuantity([b1, b2, s1]) == 15 && TotalSellQuantity([b1, b2, s1]) == 12
    ensures TotalBuyAmount([b1, b2, s1]) == 1550
  {
    FeedBuy([], b1);
    FeedBuy([b1], b2);
    FeedSell([b1, b2], s1);
    assert [] + [b1] == [b1] && [b1] + [b2] == [b1, b2] && [b1, b2] + [s1] == [b1, b2, s1];
    assert OfType([], Buy) == [] && OfType([], Sell) == [];
    SettleStepAfter([b1], b2, SettleAcc(12, 0));
    SettleStepAfter([], b1, SettleAcc(12, 0));
  }

  /** The same example fed through the scans: the settlement scan re-run
      at the SELL ends at 1220, with 3 shares left over from the pool. */
  lemma ScenarioScans(b1: Order, b2: Order, s1: Order)
    requires b1.orderType == Buy && b1.quantity == 10 && b1.actualPrice == Some(100)
    requires b2.orderType == Buy && b2.quantity == 5 && b2.actualPrice == Some(110)
    requires s1.orderType == Sell && s1.quantity == 12 && s1.actualPrice == Some(120)
    ensures Run([b1, b2, s1]).totalOrder == 3
    ensures Run([b1, b2, s1]).settlement == SettleAcc(0, 1220)
  {
    var fed := [b1, b2, s1];
    ScenarioSummary(b1, b2, s1);
    RunMeansTotals(fed);
    assert Run(fed).settlement == SettleFold(OfType(fed, Buy), SettleAcc(TotalSellQuantity(fed), 0));
  }

  /** A worked example without SELLs: BUY 10 at 50 leaves all 10 shares in
      hand at a stock amount of 500, with nothing settled. */
  lemma ScenarioBuyOnly(b: Order)
    requires b.orderType == Buy && b.quantity == 10 && b.actualPrice == Some(50)
    ensures SummaryOf([b]) == Summary(10, 500, 0, 0)
  {
    FeedBuy([], b);
    assert [] + [b] == [b];
    assert OfType([], Buy) == [] && OfType([], Sell) == [];
    SettleStepAfter([], b, SettleAcc(0, 0));
  }

  /** Feeding one more BUY extends the BUY stream and its totals by that order
      and leaves the SELL side alone. */
  lemma FeedBuy(fed: seq<Order>, o: Order)
    requires o.orderType == Buy
    ensures OfType(fed + [o], Buy) == OfType(fed, Buy) + [o]
    ensures OfType(fed + [o], Sell) == OfType(fed, Sell)
    ensures TotalBuyQuantity(fed + [o]) == TotalBuyQuantity(fed) + o.quantity
    ensures TotalBuyAmount(fed + [o]) == TotalBuyAmount(fed) + Amount(o)
    ensures TotalSellQuantity(fed + [o]) == TotalSellQuantity(fed)
    ensures TotalSellAmount(fed + [o]) == TotalSellAmount(fed)
  {
    assert (fed + [o])[..|fed|] == fed;
    var buys := OfType(fed, Buy);
    assert (buys + [o])[..|buys|] == buys;
  }

  /** Feeding one more SELL extends the SELL stream and its totals by that
      order and leaves the BUY side alone. */
  lemma FeedSell(fed: seq<Order>, o: Order)
    requires o.orderType == Sell
    ensures OfType(fed + [o], Sell) == OfType(fed, Sell) + [o]
    ensures OfType(fed + [o], Buy) == OfType(fed, Buy)
    ensures TotalSellQuantity(fed + [o]) == TotalSellQuantity(fed) + o.quantity
    ensures TotalSellAmount(fed + [o]) == TotalSellAmount(fed) + Amount(o)
    ensures TotalBuyQuantity(fed + [o]) == TotalBuyQuantity(fed)
    ensures TotalBuyAmount(fed + [o]) == TotalBuyAmount(fed)
  {
    assert (fed + [o])[..|fed|] == fed;
    var sells := OfType(fed, Sell);
    assert (sells + [o])[..|sells|] == sells;
  }

  /** The settlement scan takes one step per BUY appended. */
  lemma SettleStepAfter(buys: seq<Order>, o: Order, init: SettleAcc)
    ensures SettleFold(buys + [o], init) == SettleStep(SettleFold(buys, init), o)
  {
    assert (buys + [o])[..|buys|] == buys;
  }

  /** Re-runs the settlement scan over the replayed BUY orders (`shareReplay`)
      from a pool of `totalSellQuantity`, as each new SELL total does. */
  method ReplaySettlement(buys: seq<Order>, totalSellQuantity: nat) returns (acc: SettleAcc)
    ensures acc == SettleFold(buys, SettleAcc(totalSellQuantity, 0))
    ensures acc.sellQty == Max(0, totalSellQuantity - SumQuantity(buys))
  {
    acc := SettleAcc(totalSellQuantity, 0);
    var i := 0;
    while i < |buys|
      invariant 0 <= i <= |buys|
      invariant acc == SettleFold(buys[..i], SettleAcc(totalSellQuantity, 0))
    {
      assert buys[..i + 1] == buys[..i] + [buys[i]];
      SettleStepAfter(buys[..i], buys[i], SettleAcc(totalSellQuantity, 0));
      acc := SettleStep(acc, buys[i]);
      i := i + 1;
    }
    assert buys[..i] == buys;
  }

  /** The values held by the `scan`s of `getSummary$` after some orders:
      the order count, the BUY orders replayed by `shareReplay`, the four
      quantity and amount totals, and the accumulator of the latest
      settlement scan. */
  datatype StreamState = StreamState(
    totalOrder: nat,
    buyOrders: seq<Order>,
    totalBuyQuantity: nat,
    totalSellQuantity: nat,
    totalBuyAmount: int,
    totalSellAmount: int,
    settlement: SettleAcc)

  /** Every `scan` at its seed value. */
  function InitialState(): StreamState {
    StreamState(0, [], 0, 0, 0, 0, SettleAcc(0, 0))
  }

  /** What one `orderInput$.next(o)` does to the scans. The count rises by one
      whatever the side. A BUY joins the replay buffer, adds to the BUY totals
      and advances the current settlement scan by one step. A SELL adds to the
      SELL totals; the SELL total having changed, a settlement scan starts
      afresh over every buffered BUY. */
  function Step(st: StreamState, o: Order): StreamState {
    if o.orderType == Buy then
      st.(totalOrder := st.totalOrder + 1,
          buyOrders := st.buyOrders + [o],
          totalBuyQuantity := st.totalBuyQuantity + o.quantity,
          totalBuyAmount := st.totalBuyAmount + Amount(o),
          settlement := SettleStep(st.settlement, o))
    else
      st.(totalOrder := st.totalOrder + 1,
          totalSellQuantity := st.totalSellQuantity + o.quantity,
          totalSellAmount := st.totalSellAmount + Amount(o),
          settlement := SettleFold(st.buyOrders, SettleAcc(st.totalSellQuantity + o.quantity, 0)))
  }

  /** The scans after feeding `fed` in order. */
  function Run(fed: seq<Order>): StreamState {
    if fed == [] then InitialState() else Step(Run(fed[..|fed| - 1]), fed[|fed| - 1])
  }

  /** Feeding one more order is one more step. */
  lemma RunAppend(fed: seq<Order>, o: Order)
    ensures Run(fed + [o]) == Step(Run(fed), o)
  {
    assert (fed + [o])[..|fed|] == fed;
  }

  /** The count scan counts the orders fed. */
  lemma {:induction false} RunCount(fed: seq<Order>)
    ensures Run(fed).totalOrder == |fed|
  {
    if fed != [] {
      RunCount(fed[..|fed| - 1]);
    }
  }

  /** The scan values that the batch totals of `fed` call for: the count of
      orders, the BUYs in order, the quantity and amount sums of each side,
      and the settlement fold of all BUYs against the whole SELL quantity. */
  function BatchState(fed: seq<Order>): StreamState {
    StreamState(
      |fed|,
      OfType(fed, Buy),
      TotalBuyQuantity(fed),
      TotalSellQuantity(fed),
      TotalBuyAmount(fed),
      TotalSellAmount(fed),
      SettleFold(OfType(fed, Buy), SettleAcc(TotalSellQuantity(fed), 0)))
  }

  /** One feed keeps the scans equal to the batch totals. */
  lemma StepMatchesBatch(fed: seq<Order>, o: Order)
    ensures Step(BatchState(fed), o) == BatchState(fed + [o])
  {
    if o.orderType == Buy {
      FeedBuy(fed, o);
      SettleStepAfter(OfType(fed, Buy), o, SettleAcc(TotalSellQuantity(fed), 0));
    } else {
      FeedSell(fed, o);
    }
  }

  /** The running scans hold the batch totals of the orders fed. */
  lemma {:induction false} RunMeansTotals(fed: seq<Order>)
    ensures Run(fed) == BatchState(fed)
  {
    if fed != [] {
      var most, o := fed[..|fed| - 1], fed[|fed| - 1];
      assert fed == most + [o];
      RunMeansTotals(most);
      StepMatchesBatch(most, o);
    }
  }

  /** The state behind `getSummary$`, one field per scan. Its abstract
      value is `State()`; the orders fed so far are not kept, so callers that
      track them do so as `State() == Run(fed)`. */
  class Aggregator {
    var totalOrder: nat
    var buyOrders: seq<Order>
    var totalBuyQuantity: nat
    var totalSellQuantity: nat
    var totalBuyAmount: int
    var totalSellAmount: int
    var settlement: SettleAcc

    function State(): StreamState
      reads this
    {
      StreamState(totalOrder, buyOrders, totalBuyQuantity, totalSellQuantity,
                  totalBuyAmount, totalSellAmount, settlement)
    }

    constructor ()
      ensures State() == InitialState()
    {
      totalOrder := 0;
      buyOrders := [];
      totalBuyQuantity, totalSellQuantity := 0, 0;
      totalBuyAmount, totalSellAmount := 0, 0;
      settlement := SettleAcc(0, 0);
    }

    /** `orderInput$.next(o)`: each scan takes its step; for a SELL the
        settlement scan is re-run over the replayed BUYs. */
    method Feed(o: Order)
      modifies this
      ensures State() == Step(old(State()), o)
    {
      if o.orderType == Buy {
        totalOrder := totalOrder + 1;
        buyOrders := buyOrders + [o];
        totalBuyQuantity := totalBuyQuantity + o.quantity;
        totalBuyAmount := totalBuyAmount + Amount(o);
        settlement := SettleStep(settlement, o);
      } else {
        var replayed := ReplaySettlement(buyOrders, totalSellQuantity + o.quantity);
        totalOrder := totalOrder + 1;
        totalSellQuantity := totalSellQuantity + o.quantity;
        totalSellAmount := totalSellAmount + Amount(o);
        settlement := replayed;
      }
    }

    /** The latest `summary$` value: stocks in hand and stock amount derived
        from the running totals. When the scans are those of the orders `fed`,
        it is their batch summary. */
    function Snapshot(ghost fed: seq<Order>): (s: Summary)
      reads this
      requires State() == Run(fed)
      ensures s == SummaryOf(fed)
      ensures s.totalStocksInHand == TotalBuyQuantity(fed) - TotalSellQuantity(fed)
      ensures s.totalStockAmount == TotalBuyAmount(fed) - TotalSettled(fed)
    {
      RunMeansTotals(fed);
      Summary(
        totalBuyQuantity - totalSellQuantity,
        totalBuyAmount - settlement.settled,
        totalSellAmount,
        settlement.settled)
    }
  }
}
