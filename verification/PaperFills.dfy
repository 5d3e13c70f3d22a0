/** What a fill does to the position it trades, to its order and to the account. */
module PaperFills {
  import opened Prelude
  import opened Costs
  import opened Orders
  import opened Portfolio
  import opened PaperExchange

  const BUYS := {Side.BUY, BUY_YES, BUY_NO}

  /** The position in a symbol: positive when long, negative when short, nothing when there is none. */
  function Net(a: Account, symbol: string): real {
    if symbol !in a.positions then 0.0
    else if a.positions[symbol].side == LONG then a.positions[symbol].quantity
    else -a.positions[symbol].quantity
  }

  /** A trade that goes through moves the position of its symbol by its quantity, up for a purchase and
      down for a sale, whether it opens, extends, reduces or closes; only a residue of less than the
      program's tolerance is rounded away. It moves no other position. */
  lemma TradeMovesPosition(a: Account, o: Order, quantity: real, price: real, fee: real)
    requires Sound(a) && Traded(a, o, quantity, price, fee).1.None?
    ensures var b := Traded(a, o, quantity, price, fee).0;
            var off := Net(b, o.symbol) - Net(a, o.symbol) - if o.side in BUYS then quantity else -quantity;
            && (if o.symbol in b.positions then off == 0.0 else Abs(off) < DUST)
            && b.positions - {o.symbol} == a.positions - {o.symbol}
  {
  }

  /** It moves cash against the position at its price, and takes its fee. */
  lemma TradeMovesCash(a: Account, o: Order, quantity: real, price: real, fee: real)
    requires Sound(a) && Traded(a, o, quantity, price, fee).1.None?
    ensures var b := Traded(a, o, quantity, price, fee).0;
            && b.cash == a.cash - (if o.side in BUYS then quantity * price else -(quantity * price)) - fee
            && b.feesPaid == a.feesPaid + fee && b.tradesToday == a.tradesToday + 1
  {
  }

  /** The trade adds to the position, or opens one. */
  predicate Adds(a: Account, o: Order) {
    if o.side in BUYS then 0.0 <= Net(a, o.symbol) else Net(a, o.symbol) <= 0.0
  }

  /** A trade against the position realizes what its price is better than the entry, less its fee, and
      leaves the entry of what remains. */
  lemma TradeRealizes(a: Account, o: Order, quantity: real, price: real, fee: real)
    requires Sound(a) && Traded(a, o, quantity, price, fee).1.None? && !Adds(a, o)
    ensures var b, h := Traded(a, o, quantity, price, fee).0, a.positions[o.symbol];
            && b.realized == a.realized - fee
                 + (if o.side in BUYS then (h.average - price) * quantity else (price - h.average) * quantity)
            && (o.symbol in b.positions ==> b.positions[o.symbol].average == h.average)
  {
  }

  /** One that adds to it realizes nothing, and enters at the average of what was held and what is
      new. */
  lemma TradeAverages(a: Account, o: Order, quantity: real, price: real, fee: real)
    requires Sound(a) && Traded(a, o, quantity, price, fee).1.None? && Adds(a, o)
    ensures var b := Traded(a, o, quantity, price, fee).0;
            && b.realized == a.realized && o.symbol in b.positions
            && b.positions[o.symbol].quantity * b.positions[o.symbol].average
               == quantity * price
                  + if o.symbol in a.positions then a.positions[o.symbol].quantity * a.positions[o.symbol].average
                    else 0.0
  {
    if o.symbol in a.positions && a.positions[o.symbol].quantity + quantity != 0.0 {
      AddedCost(a.positions[o.symbol], quantity, price);
    }
  }

  /** A purchase is refused for want of cash exactly beyond the tolerance, and no sale ever is. */
  lemma CashIsChecked(a: Account, o: Order, quantity: real, price: real, fee: real)
    requires Sound(a) && 0.0 < quantity && 0.0 < price && 0.0 <= Net(a, o.symbol)
    ensures var refusal := Traded(a, o, quantity, price, fee).1;
            && (o.side in BUYS ==> (refusal.Some? <==> a.cash + CASH_SLACK < quantity * price + fee))
            && (o.side in BUYS && refusal.Some? ==> refusal == Some(InsufficientCash))
            && (o.side !in BUYS && Net(a, o.symbol) == 0.0 ==> refusal.None?)
  {
  }

  /** The quantity of a fill: all that remains, or half of it where partial fills are simulated. */
  lemma FillTakesRest(v: Venue, s: State, id: OrderId, price: real, limitFill: bool)
    requires id in s.orders && 0.0 < s.orders[id].quantity - s.orders[id].filled
    ensures var q, rest := NextFill(v, s, id, price, limitFill).quantity, s.orders[id].quantity - s.orders[id].filled;
            if s.health.failure == PartialFill then q + q == rest else q == rest
  {
  }

  /** A fill attempt logs the fill or nothing. */
  lemma SettledLogs(s: State, id: OrderId, f: Fill)
    requires id in s.orders
    ensures Settled(s, id, f).state.fills == s.fills || Settled(s, id, f).state.fills == s.fills + [f]
  {
  }

  lemma TriggeredLogs(v: Venue, s: State, id: OrderId, price: real)
    requires id in s.orders && Triggered(s.orders[id], price)
    ensures var o, t := s.orders[id], FillTriggered(v, s, id, price).state;
            var at := if o.kind == LIMIT || o.kind == STOP_LIMIT then LimitOr(o, price) else price;
            t.fills == s.fills || t.fills == s.fills + [NextFill(v, s, id, at, o.kind == LIMIT)]
  {
    var o := s.orders[id];
    var at := if o.kind == LIMIT || o.kind == STOP_LIMIT then LimitOr(o, price) else price;
    SettledLogs(s, id, NextFill(v, s, id, at, o.kind == LIMIT));
  }

  /** The log has grown by a fill of the order, for the maker's fee of its asset on the traded value
      if the order is a limit and for the taker's if it is not. */
  predicate LogsPaid(v: Venue, s: State, t: State, id: OrderId)
    requires id in s.orders
  {
    && |t.fills| == |s.fills| + 1
    && var o, f := s.orders[id], t.fills[|s.fills|];
       && f.order == id
       && f.fee == Abs(f.quantity * f.price)
                   * v.fees.Rate(o.asset, if o.kind == LIMIT then Maker else Taker, Some("paper"))
  }

  /** What an order that a price triggers pays. */
  lemma TriggeredPays(v: Venue, s: State, id: OrderId, price: real)
    requires id in s.orders && Triggered(s.orders[id], price)
    ensures var t := FillTriggered(v, s, id, price).state; t.fills == s.fills || LogsPaid(v, s, t, id)
  {
    var o, t := s.orders[id], FillTriggered(v, s, id, price).state;
    var at := if o.kind == LIMIT || o.kind == STOP_LIMIT then LimitOr(o, price) else price;
    TriggeredLogs(v, s, id, price);
    PaidNext(v, s, t, id, at, o.kind == LIMIT);
  }

  lemma PaidNext(v: Venue, s: State, t: State, id: OrderId, at: real, limitFill: bool)
    requires id in s.orders && limitFill == (s.orders[id].kind == LIMIT)
    ensures t.fills == s.fills + [NextFill(v, s, id, at, limitFill)] ==> LogsPaid(v, s, t, id)
  {
  }

  /** A price that triggers an order without a limit of its own trades it there, worse by the slippage
      and no better. */
  lemma TriggeredAt(v: Venue, s: State, id: OrderId, price: real)
    requires id in s.orders && s.orders[id].kind in {STOP, TAKE_PROFIT} && s.orders[id].asset != PREDICTION
    requires Triggered(s.orders[id], price)
    ensures var o, t := s.orders[id], FillTriggered(v, s, id, price).state;
            var slip := price * (v.slippage.Bps(o.quantity - o.filled) / 10000.0);
            t.fills == s.fills
            || (|t.fills| == |s.fills| + 1
                && t.fills[|s.fills|].price == if o.side in BUYS then price + slip else price - slip)
  {
    TriggeredLogs(v, s, id, price);
    SlipsFrom(v, s, id, price);
  }

  lemma SlipsFrom(v: Venue, s: State, id: OrderId, price: real)
    requires id in s.orders && s.orders[id].asset != PREDICTION
    ensures var o := s.orders[id];
            var slip := price * (v.slippage.Bps(o.quantity - o.filled) / 10000.0);
            NextFill(v, s, id, price, false).price == if o.side in BUYS then price + slip else price - slip
  {
  }

  /** After a fill the position carries the protective prices its order brought, and keeps its own
      where the order brought none. */
  lemma FillCarriesBracket(s: State, id: OrderId, f: Fill)
    requires id in s.orders && !Settled(s, id, f).raised && |Settled(s, id, f).state.fills| > |s.fills|
    requires s.orders[id].symbol in Settled(s, id, f).state.account.positions
    ensures var o, k := s.orders[id], Settled(s, id, f).state.account.positions[s.orders[id].symbol];
            && (o.stopLoss.Some? ==> k.stop == o.stopLoss)
            && (o.takeProfit.Some? ==> k.target == o.takeProfit)
            && (o.symbol in s.account.positions ==>
                  && (o.stopLoss.None? ==> k.stop == s.account.positions[o.symbol].stop)
                  && (o.takeProfit.None? ==> k.target == s.account.positions[o.symbol].target))
  {
  }
}
