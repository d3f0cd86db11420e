/** The order trigger watcher (`executeOrder$`): a pending order is compared with
    every price tick of its symbol until one satisfies its trigger; that tick's
    price is reported once as `ORDER_DONE` and the order's `terminate` subject
    ends the subscription. The process-wide `cancelEventMap` keeps each order's
    terminate handle. */
module OrderExecution {
  import opened Orders

  /** The payload of the `ORDER_DONE` action (its `time` field is not modelled). */
  datatype OrderDone = OrderDone(id: string, actualPrice: int)

  /** Does a tick at `price` satisfy a trigger with the given target? The side
      of the order (BUY or SELL) plays no part. */
  predicate Fires(trigger: OrderTrigger, target: int, price: int) {
    match trigger
    case MoreThanOrEqual => price >= target
    case LessThanOrEqual => price <= target
  }

  /** The subscription callback on one tick: the two guarded branches of the
      code, each dispatching `ORDER_DONE` with the tick's price. */
  function Evaluate(order: Order, price: int): (r: Option<OrderDone>)
    ensures r.Some? <==> Fires(order.trigger, order.price, price)
    ensures r.Some? ==> r.value == OrderDone(order.id, price)
  {
    if price >= order.price && order.trigger.MoreThanOrEqual? then
      Some(OrderDone(order.id, price))
    else if price <= order.price && order.trigger.LessThanOrEqual? then
      Some(OrderDone(order.id, price))
    else
      None
  }

  /** The index of the first tick that fires the order, if there is one. */
  function FirstFiring(order: Order, ticks: seq<int>): (r: Option<nat>)
    ensures r.Some? ==> r.value < |ticks| && Fires(order.trigger, order.price, ticks[r.value])
    ensures r.Some? ==> forall j :: 0 <= j < r.value ==> !Fires(order.trigger, order.price, ticks[j])
    ensures r.None? ==> forall j :: 0 <= j < |ticks| ==> !Fires(order.trigger, order.price, ticks[j])
  {
    if ticks == [] then None
    else if Fires(order.trigger, order.price, ticks[0]) then Some(0)
    else
      match FirstFiring(order, ticks[1..])
      case None => None
      case Some(i) => Some(i + 1)
  }

  /** What the watcher dispatches over a tick sequence: nothing, or one
      `ORDER_DONE` carrying the price of the first firing tick. */
  function Emitted(order: Order, ticks: seq<int>): (r: seq<OrderDone>)
    ensures |r| <= 1
    ensures r == [] <==> forall j :: 0 <= j < |ticks| ==> !Fires(order.trigger, order.price, ticks[j])
    ensures |r| == 1 ==> r[0].id == order.id && Fires(order.trigger, order.price, r[0].actualPrice)
    ensures |r| == 1 ==> FirstFiring(order, ticks).Some? && r == [OrderDone(order.id, ticks[FirstFiring(order, ticks).value])]
  {
    match FirstFiring(order, ticks)
    case None => []
    case Some(i) => [OrderDone(order.id, ticks[i])]
  }

  /** One more tick either leaves an earlier firing in place or, when none has
      happened yet, fires exactly when the new tick satisfies the trigger. */
  lemma FirstFiringExtend(order: Order, ticks: seq<int>, i: nat)
    requires i < |ticks|
    ensures FirstFiring(order, ticks[..i]).Some? ==>
              FirstFiring(order, ticks[..i + 1]) == FirstFiring(order, ticks[..i])
    ensures FirstFiring(order, ticks[..i]).None? ==>
              FirstFiring(order, ticks[..i + 1]) ==
                if Fires(order.trigger, order.price, ticks[i]) then Some(i) else None
  {
    var before, after := ticks[..i], ticks[..i + 1];
    assert forall j :: 0 <= j < i ==> before[j] == after[j] == ticks[j];
    match FirstFiring(order, after)
    case None =>
    case Some(k) =>
      match FirstFiring(order, before)
      case None =>
      case Some(m) =>
  }

  /** A worked example: an order triggered at "price >= 100" fires once, at the
      tick 101, and the later tick 105 is ignored. */
  lemma ScenarioFiresOnce(order: Order)
    requires order.trigger == MoreThanOrEqual && order.price == 100
    ensures Emitted(order, [90, 95, 101, 105]) == [OrderDone(order.id, 101)]
  {
    var ticks := [90, 95, 101, 105];
    assert ticks[1..] == [95, 101, 105] && ticks[1..][1..] == [101, 105];
    assert FirstFiring(order, [101, 105]) == Some(0);
  }

  /** An order's `terminate` subject together with the `takeUntil`
      subscription it ends: `done` once `terminate.next()` has been called. */
  class Watcher {
    const order: Order
    var done: bool

    constructor (order: Order)
      ensures this.order == order && !done
    {
      this.order := order;
      done := false;
    }

    /** `terminate.next()`: completes `takeUntil`, so no later tick arrives. */
    method Terminate()
      modifies this
      ensures done
    {
      done := true;
    }

    /** One price tick delivered to the subscription. A terminated watcher
        ignores it; otherwise the tick is evaluated and, if it fires, the
        watcher terminates. */
    method OnTick(price: int) returns (ev: Option<OrderDone>)
      modifies this
      ensures old(done) ==> ev.None?
      ensures !old(done) ==> ev == Evaluate(order, price)
      ensures done == (old(done) || ev.Some?)
    {
      if done {
        return None;
      }
      ev := Evaluate(order, price);
      if ev.Some? {
        Terminate();
      }
    }
  }

  /** Delivers a finite stretch of the price feed to a watcher, collecting what
      it dispatches: at most one event, at the first firing tick. */
  method Watch(w: Watcher, ticks: seq<int>) returns (events: seq<OrderDone>)
    modifies w
    ensures old(w.done) ==> events == [] && w.done
    ensures !old(w.done) ==> events == Emitted(w.order, ticks)
    ensures !old(w.done) ==> (w.done <==> FirstFiring(w.order, ticks).Some?)
    ensures |events| <= 1
  {
    events := [];
    var i := 0;
    while i < |ticks|
      invariant 0 <= i <= |ticks|
      invariant old(w.done) ==> events == [] && w.done
      invariant !old(w.done) ==> events == Emitted(w.order, ticks[..i])
      invariant !old(w.done) ==> (w.done <==> FirstFiring(w.order, ticks[..i]).Some?)
    {
      FirstFiringExtend(w.order, ticks, i);
      var ev := w.OnTick(ticks[i]);
      if ev.Some? {
        events := events + [ev.value];
      }
      i := i + 1;
    }
    assert ticks[..i] == ticks;
  }

  /** Holder of the global `cancelEventMap` (order id to terminate handle). */
  class Registry {
    var cancelEventMap: map<string, Watcher>

    constructor ()
      ensures cancelEventMap == map[]
    {
      cancelEventMap := map[];
    }

    /** `executeOrder$(order)` followed by the ticks its subscription receives:
        the new handle is stored under the order's id (the `delete` pipe is
        never subscribed, so firing leaves the entry in place) and the watcher
        dispatches at most one `ORDER_DONE`. */
    method ExecuteOrder(order: Order, ticks: seq<int>) returns (terminate: Watcher, events: seq<OrderDone>)
      modifies this
      ensures fresh(terminate) && terminate.order == order
      ensures cancelEventMap == old(cancelEventMap)[order.id := terminate]
      ensures events == Emitted(order, ticks) && |events| <= 1
      ensures terminate.done <==> FirstFiring(order, ticks).Some?
    {
      terminate := new Watcher(order);
      cancelEventMap := cancelEventMap[order.id := terminate];
      events := Watch(terminate, ticks);
    }
  }
}
