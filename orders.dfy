/** Orders as the trading code sees them: identity fields set at submission,
    plus the status and actual price written once when the order is fulfilled.
    Also the filters and running sums that the summary folds are built from. */
module Orders {

  datatype Option<+T> = None | Some(value: T)

  datatype OrderType = Buy | Sell

  datatype OrderTrigger = MoreThanOrEqual | LessThanOrEqual

  datatype OrderStatus = Pending | Done

  /** `price` is the target price the trigger compares against; `actualPrice`
      is the price of the tick that fulfilled the order, if any. */
  datatype Order = Order(
    id: string,
    name: string,
    orderType: OrderType,
    trigger: OrderTrigger,
    price: int,
    quantity: nat,
    status: OrderStatus,
    actualPrice: Option<int>)

  function Min(a: int, b: int): int { if a <= b then a else b }

  function Max(a: int, b: int): int { if a >= b then a else b }

  /** `val.actualPrice ?? 0` */
  function ActualPriceOrZero(o: Order): int {
    match o.actualPrice
    case Some(p) => p
    case None => 0
  }

  /** The amount an order contributes to a total: `quantity * (actualPrice ?? 0)`. */
  function Amount(o: Order): int {
    o.quantity * ActualPriceOrZero(o)
  }

  /** `filter((o) => o.type === t)`, keeping the order of the input. */
  function OfType(s: seq<Order>, t: OrderType): (r: seq<Order>)
    ensures |r| <= |s|
  {
    if s == [] then []
    else
      var last := s[|s| - 1];
      OfType(s[..|s| - 1], t) + (if last.orderType == t then [last] else [])
  }

  /** `filter((o) => o.status === OrderStatus.DONE)`, keeping the order of the input. */
  function Confirmed(s: seq<Order>): (r: seq<Order>)
    ensures |r| <= |s|
  {
    if s == [] then []
    else
      var last := s[|s| - 1];
      Confirmed(s[..|s| - 1]) + (if last.status == Done then [last] else [])
  }

  /** The filter keeps exactly the orders of the given type. */
  lemma {:induction false} OfTypeMembers(s: seq<Order>, t: OrderType)
    ensures forall o :: o in OfType(s, t) <==> o in s && o.orderType == t
  {
    if s != [] {
      var most, last := s[..|s| - 1], s[|s| - 1];
      assert s == most + [last];
      OfTypeMembers(most, t);
    }
  }

  /** The filter keeps exactly the DONE orders. */
  lemma {:induction false} ConfirmedMembers(s: seq<Order>)
    ensures forall o :: o in Confirmed(s) <==> o in s && o.status == Done
  {
    if s != [] {
      var most, last := s[..|s| - 1], s[|s| - 1];
      assert s == most + [last];
      ConfirmedMembers(most);
    }
  }

  /** Running total of `acc + val.quantity` from 0. */
  function SumQuantity(s: seq<Order>): nat {
    if s == [] then 0 else SumQuantity(s[..|s| - 1]) + s[|s| - 1].quantity
  }

  /** Running total of `acc + val.quantity * (val.actualPrice ?? 0)` from 0. */
  function SumAmount(s: seq<Order>): int {
    if s == [] then 0 else SumAmount(s[..|s| - 1]) + Amount(s[|s| - 1])
  }

  ghost predicate NonNegativePrices(s: seq<Order>) {
    forall o :: o in s ==> ActualPriceOrZero(o) >= 0
  }

  /** Orders without quantity contribute nothing, whatever their price. */
  lemma {:induction false} NoQuantityNoAmount(s: seq<Order>)
    requires SumQuantity(s) == 0
    ensures SumAmount(s) == 0
  {
    if s != [] {
      NoQuantityNoAmount(s[..|s| - 1]);
    }
  }

  /** With non-negative prices every running amount is non-negative. */
  lemma {:induction false} AmountNonNegative(s: seq<Order>)
    requires NonNegativePrices(s)
    ensures SumAmount(s) >= 0
  {
    if s != [] {
      var init := s[..|s| - 1];
      assert forall o :: o in init ==> o in s;
      AmountNonNegative(init);
      assert s[|s| - 1] in s;
    }
  }
}
