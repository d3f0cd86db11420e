/** The `OrderSummary` component: on every store update it feeds the DONE
    orders past the aggregator's count into `orderInput$`, and it renders the
    latest summary with 0 for anything missing. The commented-out earlier
    version of the component computed the same figures in one batch with
    `reduce`; `BatchSummary` is that computation. */
module OrderSummaryComponent {
  import opened Orders
  import opened OrderSummaryStream

  /** `array.splice(start)` on a fresh array returns the elements from
      `start` on, and nothing when `start` is past the end. */
  function Splice(s: seq<Order>, start: nat): (r: seq<Order>)
    ensures start <= |s| ==> s == s[..start] + r
    ensures |r| == Max(0, |s| - start)
  {
    if start <= |s| then s[start..] else []
  }

  /** `orders.filter(DONE).splice(cursor)`: the DONE orders in store order
      without the first `cursor` of them. */
  function Remaining(orders: seq<Order>, cursor: nat): (r: seq<Order>)
    ensures cursor <= |Confirmed(orders)| ==> Confirmed(orders) == Confirmed(orders)[..cursor] + r
    ensures cursor >= |Confirmed(orders)| ==> r == []
  {
    var done := Confirmed(orders);
    assert cursor <= |done| ==> done == done[..cursor] + done[cursor..];
    Splice(done, cursor)
  }

  /** Only DONE orders of the store are ever fed. */
  lemma RemainingAreDone(orders: seq<Order>, cursor: nat)
    ensures forall o :: o in Remaining(orders, cursor) ==> o in orders && o.status == Done
  {
    ConfirmedMembers(orders);
    var done := Confirmed(orders);
    if cursor <= |done| {
      assert forall o :: o in done[cursor..] ==> o in done;
    }
  }

  /** The aggregator's history after the effect runs on `orders`, the cursor
      being the number of orders fed so far. */
  function AfterUpdate(fed: seq<Order>, orders: seq<Order>): seq<Order> {
    fed + Remaining(orders, |fed|)
  }

  /** One more element of `s` extends `fed + s[..i]` by that element. */
  lemma PrefixGrows(fed: seq<Order>, s: seq<Order>, i: nat)
    requires i < |s|
    ensures fed + s[..i + 1] == (fed + s[..i]) + [s[i]]
  {
    assert s[..i + 1] == s[..i] + [s[i]];
  }

  /** `remainingOrders.forEach((o) => orderInput$.next(o))`: the scans move
      from the orders `fed` to `fed + remainingOrders`. */
  method FeedAll(summary: Aggregator, remainingOrders: seq<Order>, ghost fed: seq<Order>)
    requires summary.State() == Run(fed)
    modifies summary
    ensures summary.State() == Run(fed + remainingOrders)
  {
    var i := 0;
    assert fed + remainingOrders[..0] == fed;
    while i < |remainingOrders|
      invariant 0 <= i <= |remainingOrders|
      invariant summary.State() == Run(fed + remainingOrders[..i])
    {
      RunAppend(fed + remainingOrders[..i], remainingOrders[i]);
      PrefixGrows(fed, remainingOrders, i);
      summary.Feed(remainingOrders[i]);
      i := i + 1;
    }
    assert remainingOrders[..i] == remainingOrders;
  }

  /** The `useEffect` body: read the cursor (`totalOrder$` has no value
      before the first order, and `?? 0` gives the counter's start), take the
      unsummarised DONE orders and feed them in list order. The scans hold
      the orders `fed` before and `AfterUpdate(fed, orders)` after; the
      cursor ends at the number of DONE orders in the store, unless it was
      already past it, in which case nothing is fed. */
  method OnOrdersChange(summary: Aggregator, orders: seq<Order>, ghost fed: seq<Order>)
    requires summary.State() == Run(fed)
    modifies summary
    ensures summary.State() == Run(AfterUpdate(fed, orders))
    ensures |fed| <= |Confirmed(orders)| ==> summary.totalOrder == |Confirmed(orders)|
    ensures |fed| >= |Confirmed(orders)| ==> summary.State() == old(summary.State())
  {
    RunCount(fed);
    var totalSummarizedOrder := summary.totalOrder;
    var remainingOrders := Remaining(orders, totalSummarizedOrder);
    FeedAll(summary, remainingOrders, fed);
    RunCount(AfterUpdate(fed, orders));
    if |fed| >= |Confirmed(orders)| {
      assert fed + [] == fed;
    }
  }

  /** The history of a fresh aggregator after the effect has run on each
      store state in turn. */
  function ReplayUpdates(updates: seq<seq<Order>>): seq<Order> {
    if updates == [] then []
    else AfterUpdate(ReplayUpdates(updates[..|updates| - 1]), updates[|updates| - 1])
  }

  /** The effect on one more store state extends the replayed history. */
  lemma ReplayStep(updates: seq<seq<Order>>, k: nat)
    requires k < |updates|
    ensures ReplayUpdates(updates[..k + 1]) == AfterUpdate(ReplayUpdates(updates[..k]), updates[k])
  {
    assert updates[..k + 1][..k] == updates[..k];
  }

  /** The DONE list of each store state extends that of every earlier one. */
  ghost predicate GrowsAtEnd(updates: seq<seq<Order>>) {
    forall i, j :: 0 <= i < j < |updates| ==> Confirmed(updates[i]) <= Confirmed(updates[j])
  }

  /** Cursor replay: when the DONE list only grows at the end, running the
      effect on any number of store states feeds every DONE order of the
      last one exactly once, in store order. */
  lemma {:induction false} CursorReplay(updates: seq<seq<Order>>)
    requires |updates| > 0 && GrowsAtEnd(updates)
    ensures ReplayUpdates(updates) == Confirmed(updates[|updates| - 1])
  {
    var n := |updates|;
    var last := updates[n - 1];
    var most := updates[..n - 1];
    assert ReplayUpdates(updates) == AfterUpdate(ReplayUpdates(most), last);
    if n == 1 {
      assert ReplayUpdates(most) == [];
    } else {
      assert forall i :: 0 <= i < |most| ==> most[i] == updates[i];
      assert GrowsAtEnd(most);
      CursorReplay(most);
      var before, done := ReplayUpdates(most), Confirmed(last);
      assert before == Confirmed(updates[n - 2]);
      assert before <= done;
      assert done == done[..|before|] + Remaining(last, |before|);
    }
  }

  /** Without growth at the end the cursor counts the wrong orders: if an
      order listed first is fulfilled after one listed second, the second is
      summarised twice and the first never. */
  lemma ReplayNeedsGrowthAtEnd(a: Order, b: Order)
    requires a.status == Pending && b.status == Done && a.id != b.id
    ensures !GrowsAtEnd([[a, b], [a.(status := Done), b]])
    ensures ReplayUpdates([[a, b], [a.(status := Done), b]]) == [b, b]
  {
    var a' := a.(status := Done);
    ConfirmedOfTwo(a, b);
    ConfirmedOfTwo(a', b);
    ReplayOfTwo([a, b], [a', b]);
    var first := AfterUpdate([], [a, b]);
    assert first == [b];
    assert Remaining([a', b], 1) == [b];
    assert [a', b][0] != [b][0];
  }

  /** The DONE filter on a two-order list. */
  lemma ConfirmedOfTwo(x: Order, y: Order)
    ensures Confirmed([x, y]) == (if x.status == Done then [x] else []) + (if y.status == Done then [y] else [])
  {
    assert [x, y][..1] == [x] && [x][..0] == [];
  }

  /** The effect run on two store states in turn. */
  lemma ReplayOfTwo(u: seq<Order>, v: seq<Order>)
    ensures ReplayUpdates([u, v]) == AfterUpdate(AfterUpdate([], u), v)
  {
    assert [u, v][..1] == [u] && [u][..0] == [];
    assert ReplayUpdates([u]) == AfterUpdate(ReplayUpdates([]), u);
  }

  /** The commented-out batch computation: filter DONE, split by side,
      `reduce` each side, and run the settlement `reduce` over the BUYs. */
  function BatchSummary(orders: seq<Order>): (r: Summary)
    ensures r == SummaryOf(Confirmed(orders))
  {
    var confirmedOrders := Confirmed(orders);
    var buyOrders := OfType(confirmedOrders, Buy);
    var sellOrders := OfType(confirmedOrders, Sell);
    var totalBuyQuantity := SumQuantity(buyOrders);
    var totalSellQuantity := SumQuantity(sellOrders);
    var totalSettled := SettleFold(buyOrders, SettleAcc(totalSellQuantity, 0)).settled;
    var totalBuyAmount := SumAmount(buyOrders);
    var totalSellAmount := SumAmount(sellOrders);
    Summary(totalBuyQuantity - totalSellQuantity, totalBuyAmount - totalSettled, totalSellAmount, totalSettled)
  }

  /** The component over a run of store states, from a fresh `getSummary$()`:
      if the DONE list only grows at the end, the summary it ends with is the
      batch summary of the last state. */
  method SummarizeUpdates(updates: seq<seq<Order>>) returns (s: Summary)
    requires |updates| > 0 && GrowsAtEnd(updates)
    ensures s == BatchSummary(updates[|updates| - 1])
  {
    var summary := new Aggregator();
    var k := 0;
    assert updates[..0] == [];
    while k < |updates|
      invariant 0 <= k <= |updates|
      invariant summary.State() == Run(ReplayUpdates(updates[..k]))
    {
      ghost var fed := ReplayUpdates(updates[..k]);
      ReplayStep(updates, k);
      OnOrdersChange(summary, updates[k], fed);
      k := k + 1;
    }
    assert updates[..k] == updates;
    ghost var last := updates[|updates| - 1];
    CursorReplay(updates);
    s := summary.Snapshot(Confirmed(last));
  }

  /** The "Average price" cell: 0 when no stocks are held, otherwise the
      quotient of stock amount by stocks in hand (left unevaluated). */
  datatype AveragePrice = NoStocks | PerShare(amount: int, stocks: int)

  /** The four figures the component displays. */
  datatype Display = Display(stocksInHand: int, stockAmount: int, averagePrice: AveragePrice, profitLoss: int)

  /** `summary.data?.field ?? 0` for each field, then the average guard
      and `totalSellAmount - totalSettled` for profit/loss. */
  function Render(summary: Option<Summary>): (d: Display)
    ensures summary.None? ==> d == Display(0, 0, NoStocks, 0)
    ensures summary.Some? ==>
              && d.stocksInHand == summary.value.totalStocksInHand
              && d.stockAmount == summary.value.totalStockAmount
              && d.profitLoss == summary.value.totalSellAmount - summary.value.totalSettled
    ensures d.averagePrice.NoStocks? <==> d.stocksInHand == 0
    ensures d.averagePrice.PerShare? ==> d.averagePrice == PerShare(d.stockAmount, d.stocksInHand)
  {
    var totalStocksInHand := if summary.Some? then summary.value.totalStocksInHand else 0;
    var totalStockAmount := if summary.Some? then summary.value.totalStockAmount else 0;
    var totalSellAmount := if summary.Some? then summary.value.totalSellAmount else 0;
    var totalSettled := if summary.Some? then summary.value.totalSettled else 0;
    Display(
      totalStocksInHand,
      totalStockAmount,
      if totalStocksInHand == 0 then NoStocks else PerShare(totalStockAmount, totalStocksInHand),
      totalSellAmount - totalSettled)
  }

  /** The worked example of the summary as displayed: profit/loss is
      1440 - 1220 = 220 and the average cell is 330 over 3 shares. */
  lemma ScenarioDisplay(b1: Order, b2: Order, s1: Order)
    requires b1.orderType == Buy && b1.quantity == 10 && b1.actualPrice == Some(100)
    requires b2.orderType == Buy && b2.quantity == 5 && b2.actualPrice == Some(110)
    requires s1.orderType == Sell && s1.quantity == 12 && s1.actualPrice == Some(120)
    ensures Render(Some(SummaryOf([b1, b2, s1]))) == Display(3, 330, PerShare(330, 3), 220)
  {
    ScenarioSummary(b1, b2, s1);
  }

  /** What the displayed figures mean for the orders fed: profit/loss is the
      SELL amount less the cost basis of the shares sold, 0 when nothing was
      sold and the whole SELL amount less the whole BUY amount when every
      bought share was sold; the stock amount is never negative. */
  lemma RenderedProfitLoss(fed: seq<Order>)
    requires NonNegativePrices(fed)
    ensures Render(Some(SummaryOf(fed))).profitLoss == TotalSellAmount(fed) - TotalSettled(fed)
    ensures Render(Some(SummaryOf(fed))).stockAmount >= 0
    ensures TotalSellQuantity(fed) == 0 ==> Render(Some(SummaryOf(fed))).profitLoss == 0
    ensures TotalSellQuantity(fed) >= TotalBuyQuantity(fed) ==>
              Render(Some(SummaryOf(fed))).profitLoss == TotalSellAmount(fed) - TotalBuyAmount(fed)
  {
    SummaryBounds(fed);
    if TotalSellQuantity(fed) == 0 {
      NoQuantityNoAmount(OfType(fed, Sell));
    }
  }
}
