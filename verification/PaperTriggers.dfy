/** Which prices fire a resting order, in prices: a price update against the order's own limit, stop
    or target. */
module PaperTriggers {
  import opened Costs
  import opened Orders
  import opened PaperExchange
  import Ledger = PaperLedger
  import Lives = PaperOrders

  const BUYS := {BUY, BUY_YES, BUY_NO}

  const SELLS := {SELL, SELL_YES, SELL_NO}

  /** A price update moves the order: fills it in whole or in part, or has it rejected. */
  ghost predicate Fires(v: Venue, s: State, price: real, id: OrderId)
    requires id in s.orders
  {
    var t := PriceUpdate(v, s, s.orders[id].symbol, price).state;
    id in t.orders && t.orders[id] != s.orders[id]
  }

  /** An open order of a state in order, and a price of its symbol whose update completes. */
  ghost predicate Rests(v: Venue, s: State, price: real, id: OrderId) {
    && Ledger.Orderly(s) && id in s.orders && IsOpen(s.orders[id].status)
    && !PriceUpdate(v, s, s.orders[id].symbol, price).raised
  }

  lemma FiresIffTriggered(v: Venue, s: State, price: real, id: OrderId)
    requires Rests(v, s, price, id)
    ensures Fires(v, s, price, id) <==> Triggered(s.orders[id], price)
  {
    Lives.UpdateFillsExactlyTheTriggered(v, s, s.orders[id].symbol, price, id);
  }

  lemma StopPrices(o: Order, price: real)
    requires o.kind in {STOP, STOP_LIMIT}
    ensures o.side in SELLS ==> (Triggered(o, price) <==> o.stop.Some? && price <= o.stop.value)
    ensures o.side in BUYS ==> (Triggered(o, price) <==> o.stop.Some? && price >= o.stop.value)
  {
  }

  /** A stop to sell fires exactly at or below its stop price, a stop to buy at or above it. */
  lemma StopFiresIff(v: Venue, s: State, price: real, id: OrderId)
    requires Rests(v, s, price, id) && s.orders[id].kind in {STOP, STOP_LIMIT}
    ensures var o := s.orders[id];
            && (o.side in SELLS ==> (Fires(v, s, price, id) <==> o.stop.Some? && price <= o.stop.value))
            && (o.side in BUYS ==> (Fires(v, s, price, id) <==> o.stop.Some? && price >= o.stop.value))
  {
    FiresIffTriggered(v, s, price, id);
    StopPrices(s.orders[id], price);
  }

  lemma LimitPrices(o: Order, price: real)
    requires o.kind == LIMIT
    ensures o.side in BUYS ==> (Triggered(o, price) <==> o.limit.Some? && price <= o.limit.value)
    ensures o.side in SELLS ==> (Triggered(o, price) <==> o.limit.Some? && price >= o.limit.value)
  {
  }

  /** A limit to buy fires exactly at or below its limit, a limit to sell at or above it. */
  lemma LimitFiresIff(v: Venue, s: State, price: real, id: OrderId)
    requires Rests(v, s, price, id) && s.orders[id].kind == LIMIT
    ensures var o := s.orders[id];
            && (o.side in BUYS ==> (Fires(v, s, price, id) <==> o.limit.Some? && price <= o.limit.value))
            && (o.side in SELLS ==> (Fires(v, s, price, id) <==> o.limit.Some? && price >= o.limit.value))
  {
    FiresIffTriggered(v, s, price, id);
    LimitPrices(s.orders[id], price);
  }

  lemma TakeProfitPrices(o: Order, price: real)
    requires o.kind == TAKE_PROFIT
    ensures o.stop.Some? && o.side in SELLS ==> (Triggered(o, price) <==> price >= o.stop.value)
    ensures o.stop.Some? && o.side in BUYS ==> (Triggered(o, price) <==> price <= o.stop.value)
    ensures o.stop.None? && o.side in SELLS ==> (Triggered(o, price) <==> o.limit.Some? && price >= o.limit.value)
    ensures o.stop.None? && o.side in BUYS ==> (Triggered(o, price) <==> o.limit.Some? && price <= o.limit.value)
  {
  }

  /** A take-profit to sell fires exactly at or above its stop price, one to buy at or below it; its
      limit stands in where it has no stop price. */
  lemma TakeProfitFiresIff(v: Venue, s: State, price: real, id: OrderId)
    requires Rests(v, s, price, id) && s.orders[id].kind == TAKE_PROFIT
    ensures var o := s.orders[id];
            && (o.stop.Some? && o.side in SELLS ==> (Fires(v, s, price, id) <==> price >= o.stop.value))
            && (o.stop.Some? && o.side in BUYS ==> (Fires(v, s, price, id) <==> price <= o.stop.value))
            && (o.stop.None? && o.side in SELLS ==>
                  (Fires(v, s, price, id) <==> o.limit.Some? && price >= o.limit.value))
            && (o.stop.None? && o.side in BUYS ==>
                  (Fires(v, s, price, id) <==> o.limit.Some? && price <= o.limit.value))
  {
    FiresIffTriggered(v, s, price, id);
    TakeProfitPrices(s.orders[id], price);
  }

  /** A market order that is still open is moved by no price. */
  lemma MarketOrdersDoNotRest(v: Venue, s: State, price: real, id: OrderId)
    requires Rests(v, s, price, id) && s.orders[id].kind == MARKET
    ensures !Fires(v, s, price, id)
  {
    FiresIffTriggered(v, s, price, id);
  }

  /** The one price is further than the other in the direction an order waits for: a stop waits for
      prices to turn against it, a limit or a take-profit for prices in its favour. */
  predicate Further(o: Order, near: real, far: real) {
    if (o.kind in {STOP, STOP_LIMIT}) == (o.side in BUYS) then near <= far else far <= near
  }

  /** An order that fires at a price fires at every price further in its direction. */
  lemma FiresFurther(v: Venue, s: State, near: real, far: real, id: OrderId)
    requires Rests(v, s, near, id) && Rests(v, s, far, id)
    requires Fires(v, s, near, id) && Further(s.orders[id], near, far)
    ensures Fires(v, s, far, id)
  {
    FiresIffTriggered(v, s, near, id);
    FiresIffTriggered(v, s, far, id);
    TriggersFurther(s.orders[id], near, far);
  }

  lemma TriggersFurther(o: Order, near: real, far: real)
    requires Triggered(o, near) && Further(o, near, far)
    ensures Triggered(o, far)
  {
  }
}
