/** The orders, the fill log and the fee total of the paper exchange tell the same story
    in every reachable state. */
module PaperLedger {
  import opened Prelude
  import opened Orders
  import opened Portfolio
  import opened PaperExchange
  import Money = PaperMoney

  // ----- the invariant -----

  /** What the status of an order says about its quantities. */
  predicate QuantitiesFit(o: Order) {
    match o.status
    case CREATED | VALIDATED => false
    case SUBMITTED => o.filled == 0.0 < o.quantity
    case PARTIALLY_FILLED => 0.0 < o.filled && o.filled + DUST < o.quantity
    case FILLED => 0.0 < o.filled <= o.quantity <= o.filled + DUST
    case CANCELLED | EXPIRED => 0.0 <= o.filled <= o.quantity && 0.0 < o.quantity
    case REJECTED => o.filled == 0.0
  }

  /** An order whose own totals are the sums over its entries in the fill log. */
  predicate Agrees(o: Order, fills: seq<Fill>, id: OrderId) {
    o.filled == FilledFor(fills, id) && o.fees == FeesFor(fills, id)
  }

  predicate OrderFits(o: Order, fills: seq<Fill>, id: OrderId) {
    o.id == Some(id) && QuantitiesFit(o) && Agrees(o, fills, id)
  }

  /** The table lists each order once, generated ids are behind the sequence number, and
      fills belong to known orders. */
  ghost predicate Filed(orders: map<OrderId, Order>, book: seq<OrderId>, orderSeq: nat, fills: seq<Fill>) {
    && (forall id :: id in orders <==> id in book)
    && Distinct(book)
    && (forall id :: id in orders && id.Generated? ==> id.sequence <= orderSeq)
    && (forall i :: 0 <= i < |fills| ==> fills[i].order in orders)
  }

  predicate Distinct(ids: seq<OrderId>) {
    forall i, j :: 0 <= i < j < |ids| ==> ids[i] != ids[j]
  }

  ghost predicate OrdersFit(orders: map<OrderId, Order>, fills: seq<Fill>) {
    forall id :: id in orders ==> OrderFits(orders[id], fills, id)
  }

  /** Every fee paid is the fee of a fill or of an exit outside the order flow. */
  predicate FeesAgree(s: State) { s.account.feesPaid == AllFees(s.fills) + s.exitFees }

  ghost predicate Orderly(s: State) {
    Filed(s.orders, s.book, s.orderSeq, s.fills) && OrdersFit(s.orders, s.fills) && FeesAgree(s)
  }

  /** What each operation owes: order stays order, as long as no bad close intervenes. */
  ghost predicate KeepsOrder(s: State, t: State) {
    Sound(s.account) && Orderly(s) && !Money.Dusted(t.account) ==> Orderly(t)
  }

  lemma KeepsThrough(s: State, t: State, u: State)
    requires KeepsOrder(s, t) && Money.Keeps(s.account, t.account)
    requires KeepsOrder(t, u) && Money.Keeps(t.account, u.account)
    ensures KeepsOrder(s, u)
  {
  }

  // ----- fills -----

  /** An open order with a fill of what remains, or of half of it, still fits its status. */
  lemma FilledOrderFits(s: State, o: Order, f: Fill)
    requires IsOpen(o.status) && QuantitiesFit(o) && f.quantity == FillQuantity(s, o)
    ensures var filled := FilledOrder(o, f);
            && MayBecome(o.status, FilledStatus(filled))
            && QuantitiesFit(filled.(status := FilledStatus(filled)))
  {
  }

  /** Appending a fill to the log and to its own order keeps both in agreement. */
  lemma LoggedFillFits(orders: map<OrderId, Order>, fills: seq<Fill>, id: OrderId, f: Fill, o: Order)
    requires id in orders && f.order == id && OrdersFit(orders, fills)
    requires o.id == Some(id) && QuantitiesFit(o)
    requires o.filled == orders[id].filled + f.quantity && o.fees == orders[id].fees + f.fee
    ensures OrdersFit(orders[id := o], fills + [f])
  {
    FillAppended(fills, f);
    var updated := orders[id := o];
    forall i | i in updated
      ensures OrderFits(updated[i], fills + [f], i)
    {
      assert OrderFits(orders[i], fills, i);
    }
  }

  lemma RecordedKeeps(s: State, id: OrderId, account: Account, f: Fill)
    requires id in s.orders && IsOpen(s.orders[id].status) && Orderly(s)
    requires f.order == id && f.quantity == FillQuantity(s, s.orders[id])
    requires account.feesPaid == s.account.feesPaid + f.fee
    ensures var r := Recorded(s, id, account, f);
            Orderly(r.state) && !r.raised
  {
    var o := s.orders[id];
    var filled := FilledOrder(o, f);
    assert OrderFits(o, s.fills, id);
    FilledOrderFits(s, o, f);
    LoggedFillFits(s.orders, s.fills, id, f, filled.(status := FilledStatus(filled)));
    FillAppended(s.fills, f);
  }

  /** Rewriting one order by one that fits keeps the table in order. */
  lemma RewrittenFits(orders: map<OrderId, Order>, fills: seq<Fill>, id: OrderId, o: Order)
    requires OrdersFit(orders, fills) && OrderFits(o, fills, id)
    ensures OrdersFit(orders[id := o], fills)
  {
  }

  lemma SettledKeeps(s: State, id: OrderId, f: Fill)
    requires id in s.orders && IsOpen(s.orders[id].status)
    requires f.order == id && f.quantity == FillQuantity(s, s.orders[id])
    ensures KeepsOrder(s, Settled(s, id, f).state)
  {
    if Sound(s.account) && Orderly(s) {
      var o := s.orders[id];
      var (account, refusal) := Traded(s.account, o, f.quantity, f.price, f.fee);
      Money.TradedKeeps(s.account, o, f.quantity, f.price, f.fee);
      assert OrderFits(o, s.fills, id);
      if refusal.None? {
        RecordedKeeps(s, id, account, f);
      } else {
        RewrittenFits(s.orders, s.fills, id, if o.status == SUBMITTED then
          o.(status := REJECTED, reason := RefusalText(refusal.value)) else o);
      }
    }
  }

  /** A refused fill leaves money, positions and fill log exactly as they were. A submitted
      order ends REJECTED and keeps everything but its status and reason; a partially filled
      one has no way there, so the refusal surfaces as an exception and nothing changes. */
  lemma RefusedFillIsClean(v: Venue, s: State, id: OrderId, price: real, limitFill: bool)
    requires id in s.orders && Sound(s.account)
    requires IsOpen(s.orders[id].status) && QuantitiesFit(s.orders[id])
    ensures var o, r := s.orders[id], FillMarket(v, s, id, price, limitFill);
            && (r.raised ==> r.state == s && o.status == PARTIALLY_FILLED)
            && (!r.raised && r.state.orders[id].status == REJECTED ==>
                  && o.status == SUBMITTED
                  && r.state == s.(orders :=
                       s.orders[id := o.(status := REJECTED, reason := r.state.orders[id].reason)]))
  {
    SettledRefusal(s, id, NextFill(v, s, id, price, limitFill));
  }

  lemma SettledRefusal(s: State, id: OrderId, f: Fill)
    requires id in s.orders && Sound(s.account) && f.quantity == FillQuantity(s, s.orders[id])
    requires IsOpen(s.orders[id].status) && QuantitiesFit(s.orders[id])
    ensures var o, r := s.orders[id], Settled(s, id, f);
            && (r.raised ==> r.state == s && o.status == PARTIALLY_FILLED)
            && (!r.raised && r.state.orders[id].status == REJECTED ==>
                  && o.status == SUBMITTED
                  && r.state == s.(orders :=
                       s.orders[id := o.(status := REJECTED, reason := r.state.orders[id].reason)]))
  {
    Money.TradedKeeps(s.account, s.orders[id], f.quantity, f.price, f.fee);
    FilledOrderFits(s, s.orders[id], f);
  }

  lemma FillMarketKeeps(v: Venue, s: State, id: OrderId, price: real, limitFill: bool)
    requires id in s.orders && IsOpen(s.orders[id].status)
    ensures KeepsOrder(s, FillMarket(v, s, id, price, limitFill).state)
  {
    SettledKeeps(s, id, NextFill(v, s, id, price, limitFill));
  }

  lemma FillTriggeredKeeps(v: Venue, s: State, id: OrderId, price: real)
    requires id in s.orders && IsOpen(s.orders[id].status)
    ensures KeepsOrder(s, FillTriggered(v, s, id, price).state)
  {
    var o := s.orders[id];
    if Triggered(o, price) {
      var limited := o.kind == LIMIT || o.kind == STOP_LIMIT;
      FillMarketKeeps(v, s, id, if limited then LimitOr(o, price) else price, o.kind == LIMIT);
    }
  }

  // ----- matching -----

  lemma {:induction false} OpenIdsDistinct(orders: map<OrderId, Order>, book: seq<OrderId>, symbol: Option<string>)
    requires Distinct(book)
    ensures Distinct(OpenIds(orders, book, symbol))
  {
    if book != [] {
      OpenIdsDistinct(orders, book[..|book| - 1], symbol);
    }
  }

  /** The loop meets every listed order as it was listed, since a fill touches only its own. */
  lemma {:induction false} MatchTouchesListed(v: Venue, s: State, ids: seq<OrderId>, price: real, other: OrderId)
    requires forall id :: id in ids ==> id in s.orders
    requires other in s.orders && other !in ids
    ensures MatchOrders(v, s, ids, price).state.orders[other] == s.orders[other]
  {
    if ids != [] {
      MatchTouchesListed(v, s, ids[..|ids| - 1], price, other);
    }
  }

  lemma {:induction false} MatchKeeps(v: Venue, s: State, ids: seq<OrderId>, price: real)
    requires Distinct(ids)
    requires forall id :: id in ids ==> id in s.orders && IsOpen(s.orders[id].status)
    ensures KeepsOrder(s, MatchOrders(v, s, ids, price).state)
  {
    if ids != [] {
      var n := |ids| - 1;
      var before := MatchOrders(v, s, ids[..n], price);
      MatchKeeps(v, s, ids[..n], price);
      if !before.raised {
        Money.MatchKeeps(v, s, ids[..n], price);
        MatchTouchesListed(v, s, ids[..n], price, ids[n]);
        FillTriggeredKeeps(v, before.state, ids[n], price);
        Money.FillTriggeredKeeps(v, before.state, ids[n], price);
        KeepsThrough(s, before.state, FillTriggered(v, before.state, ids[n], price).state);
      }
    }
  }

  // ----- operations that leave the orders alone -----

  /** Orders stand, and every fee the account has paid since is an exit fee. */
  predicate SameOrders(s: State, t: State) {
    && s.orders == t.orders && s.book == t.book && s.fills == t.fills && s.orderSeq == t.orderSeq
    && t.account.feesPaid - s.account.feesPaid == t.exitFees - s.exitFees
  }

  lemma ClosedOutSame(v: Venue, s: State, symbol: string, quantity: Option<real>, price: real)
    requires symbol in s.account.positions
    ensures SameOrders(s, ClosedOut(v, s, symbol, quantity, price).state)
  {
  }

  lemma ExitSame(v: Venue, s: State, symbol: string, price: real)
    ensures SameOrders(s, ExitPosition(v, s, symbol, price).state)
  {
    if symbol in s.account.positions {
      ClosedOutSame(v, s, symbol, None, price);
    }
  }

  lemma PartialExitedSame(v: Venue, s: State, symbol: string, risk: Option<real>, price: real)
    requires symbol in s.account.positions
    ensures SameOrders(s, PartialExited(v, s, symbol, risk, price).state)
  {
    var h := s.account.positions[symbol];
    if PartialFires(s, symbol, h, risk, price) {
      ClosedOutSame(v, s, symbol, Some(PartialQuantity(h, s.rules.partials[symbol])), price);
    }
  }

  lemma ProtectedSame(v: Venue, s: State, symbol: string, price: real)
    ensures SameOrders(s, Protected(v, s, symbol, price).state)
  {
    if symbol in s.account.positions {
      var h := s.account.positions[symbol];
      var stop := Trailing.Trailed(s.rules.trailing, symbol, IsLong(h.side), price, h.stop);
      ExitSame(v, s, symbol, price);
      ExitSame(v, s.(account := Bracketed(s.account, symbol, stop, h.target)), symbol, price);
    }
  }

  lemma ManageSame(v: Venue, s: State, symbol: string, price: real)
    ensures SameOrders(s, ManagePosition(v, s, symbol, price).state)
  {
    if symbol in s.account.positions {
      var moved := MovedToBreakEven(s.(account := MarkOne(s.account, symbol, price)), symbol, price);
      var risk := RiskOf(s.account.positions[symbol]);
      PartialExitedSame(v, moved, symbol, risk, price);
      ProtectedSame(v, PartialExited(v, moved, symbol, risk, price).state, symbol, price);
    }
  }

  lemma PriceUpdateKeeps(v: Venue, s: State, symbol: string, price: real)
    ensures KeepsOrder(s, PriceUpdate(v, s, symbol, price).state)
  {
    if Sound(s.account) && Orderly(s) {
      var priced := Priced(s, symbol, price);
      var ids := OpenIds(s.orders, s.book, Some(symbol));
      var matched := MatchOrders(v, priced, ids, price).state;
      OpenIdsDistinct(s.orders, s.book, Some(symbol));
      MatchKeeps(v, priced, ids, price);
      ManageSame(v, matched, symbol, price);
      Money.ManageKeeps(v, matched, symbol, price);
    }
  }

  // ----- order intake, cancellation, day end -----

  /** An id that an order with zero totals can take: not one the exchange has yet to generate, and
      not that of an order with fills or fees. A rejected order, or one cancelled unfilled, leaves
      its id free. */
  predicate IsFree(s: State, id: OrderId) {
    && (id.Generated? ==> id.sequence <= s.orderSeq + 1)
    && (id in s.orders ==> s.orders[id].filled == 0.0 && s.orders[id].fees == 0.0)
  }

  /** An order without fills of its own, under a free id. */
  predicate IsNew(s: State, o: Order) {
    (o.id.Some? ==> IsFree(s, o.id.value)) && o.filled == 0.0 && o.fees == 0.0
  }

  lemma StoredKeeps(s: State, o: Order)
    requires Orderly(s) && o.id.Some? && OrderFits(o, s.fills, o.id.value)
    requires o.id.value.Generated? ==> o.id.value.sequence <= s.orderSeq
    ensures Orderly(Stored(s, o))
  {
    RewrittenFits(s.orders, s.fills, o.id.value, o);
  }

  /** The entries in the log under a new order's id, if any, add up to nothing, so its zero totals
      agree with them. */
  lemma NewOrderAgrees(s: State, o: Order)
    requires Orderly(s) && IsNew(s, o)
    ensures var (t, order) := Admitted(s, o);
            Orderly(t) && Agrees(order, s.fills, order.id.value)
            && (order.id.value.Generated? ==> order.id.value.sequence <= t.orderSeq)
  {
    var id := Admitted(s, o).1.id.value;
    if id in s.orders {
      assert OrderFits(s.orders[id], s.fills, id);
    } else {
      NoFillsNoSums(s.fills, id);
    }
  }

  lemma TurnedAwayKeeps(v: Venue, s: State, o: Order, reason: string)
    requires Orderly(s) && IsNew(s, o)
    ensures Orderly(TurnedAway(v, s, o, reason))
  {
    var (t, order) := Admitted(s, o);
    NewOrderAgrees(s, o);
    StoredKeeps(t, order.(status := REJECTED, reason := reason));
    ApiFailedSame(v, Stored(t, order.(status := REJECTED, reason := reason)));
  }

  lemma ApiFailedSame(v: Venue, s: State)
    ensures SameOrders(s, ApiFailed(v, s))
  {
  }

  lemma ArrivedKeeps(v: Venue, s: State, o: Order, price: real)
    requires Orderly(s) && IsNew(s, o) && o.quantity > 0.0
    ensures Orderly(Admitted(s, o).0) && Orderly(Arrived(v, s, o, price))
  {
    var (t, order) := Admitted(s, o);
    NewOrderAgrees(s, o);
    StoredKeeps(t, Submitted(v, order, price));
  }

  lemma AcceptedKeeps(v: Venue, s: State, o: Order, price: real)
    requires Orderly(s) && IsNew(s, o) && o.quantity > 0.0
    ensures KeepsOrder(s, Accepted(v, s, o, price).state)
  {
    var kept, id := Arrived(v, s, o, price), Admitted(s, o).1.id.value;
    ArrivedKeeps(v, s, o, price);
    FillMarketKeeps(v, kept, id, if o.kind == MARKET then price else LimitOr(o, price), o.kind != MARKET);
  }

  lemma CreateKeeps(v: Venue, s: State, o: Order, market: Option<real>)
    requires Orderly(s) && (Lands(v, s, o, market) ==> IsNew(s, o))
    ensures KeepsOrder(s, CreateOrder(v, s, o, market).state)
  {
    var refusal := IntakeRefusal(v, s, o, market);
    if refusal.Some? {
      TurnedAwayKeeps(v, s, o, refusal.value);
    } else if MayBecome(o.status, SUBMITTED) {
      ArrivedKeeps(v, s, o, QuotedPrice(s, o, market).value);
      AcceptedKeeps(v, s, o, QuotedPrice(s, o, market).value);
    }
  }

  lemma RestatusedKeeps(s: State, id: OrderId, status: Status)
    requires id in s.orders && IsOpen(s.orders[id].status) && Orderly(s)
    requires status == CANCELLED || status == EXPIRED
    ensures Orderly(WithStatus(s, id, status))
  {
    assert OrderFits(s.orders[id], s.fills, id);
    RewrittenFits(s.orders, s.fills, id, s.orders[id].(status := status));
  }

  lemma CancelKeeps(s: State, id: OrderId)
    requires Orderly(s)
    ensures Orderly(CancelOrder(s, id).state)
  {
    if id in s.orders && IsOpen(s.orders[id].status) {
      RestatusedKeeps(s, id, CANCELLED);
    }
  }

  lemma ExpireKeeps(s: State, id: OrderId)
    requires Orderly(s)
    ensures Orderly(ExpireOrder(s, id).state)
  {
    if id in s.orders && IsOpen(s.orders[id].status) {
      RestatusedKeeps(s, id, EXPIRED);
    }
  }

  lemma {:induction false} CancelAllKeeps(s: State, ids: seq<OrderId>)
    requires Orderly(s)
    ensures Orderly(CancelAll(s, ids))
  {
    if ids != [] {
      CancelAllKeeps(s, ids[..|ids| - 1]);
      CancelKeeps(CancelAll(s, ids[..|ids| - 1]), ids[|ids| - 1]);
    }
  }

  lemma {:induction false} FlattenedSame(v: Venue, s: State, symbols: seq<string>)
    ensures SameOrders(s, Flattened(v, s, symbols).state)
  {
    if symbols != [] {
      var n := |symbols| - 1;
      var before := Flattened(v, s, symbols[..n]);
      FlattenedSame(v, s, symbols[..n]);
      if !before.raised && symbols[n] in before.state.account.positions {
        var t, symbol := before.state, symbols[n];
        var price := if symbol in t.feed.prices then t.feed.prices[symbol] else t.account.positions[symbol].price;
        ExitSame(v, t, symbol, price);
      }
    }
  }

  lemma EndOfDayKeeps(v: Venue, s: State, symbols: seq<string>)
    requires Orderly(s)
    ensures Orderly(EndOfDay(v, s, symbols).state)
  {
    var cancelled := CancelAll(s, OpenIds(s.orders, s.book, None));
    CancelAllKeeps(s, OpenIds(s.orders, s.book, None));
    FlattenedSame(v, cancelled, symbols);
  }

  // ----- runs -----

  /** An order that lands brings no fills of its own and a free id. */
  predicate Admissible(v: Venue, s: State, c: Command) {
    c.Create? && Lands(v, s, c.order, c.market) ==> IsNew(s, c.order)
  }

  lemma SettingSame(v: Venue, s: State, c: Command)
    ensures SameOrders(s, Setting(v, s, c))
  {
  }

  /** One command keeps the orders in order. */
  lemma StepKeeps(v: Venue, s: State, c: Command)
    requires Orderly(s) && Admissible(v, s, c)
    ensures KeepsOrder(s, Step(v, s, c).state)
  {
    match c
    case Create(o, market) => CreateKeeps(v, s, o, market);
    case Cancel(id) => CancelKeeps(s, id);
    case Expire(id) => ExpireKeeps(s, id);
    case Price(symbol, price) => PriceUpdateKeeps(v, s, symbol, price);
    case DayEnd(listing) => EndOfDayKeeps(v, s, listing);
    case TakeSnapshot =>
    case _ => SettingSame(v, s, c);
  }

  /** Every order of the run that lands does so when it arrives. */
  ghost predicate AdmissibleRun(v: Venue, s: State, commands: seq<Command>) {
    commands != [] ==>
      var n := |commands| - 1;
      AdmissibleRun(v, s, commands[..n]) && Admissible(v, Run(v, s, commands[..n]), commands[n])
  }

  /** Over every run of new orders, cancels, price updates and day ends: each order is backed by
      its entries in the fill log, its status fits its quantities, and the fees paid are the fill
      fees plus the exit fees. */
  lemma {:induction false} RunKeepsOrder(v: Venue, s: State, commands: seq<Command>)
    requires Sound(s.account) && Orderly(s) && AdmissibleRun(v, s, commands)
    ensures !Money.Dusted(Run(v, s, commands).account) ==> Orderly(Run(v, s, commands))
  {
    if commands != [] {
      var n := |commands| - 1;
      var before := Run(v, s, commands[..n]);
      RunKeepsOrder(v, s, commands[..n]);
      Money.RunKeeps(v, s, commands[..n]);
      Money.StepKeeps(v, before, commands[n]);
      if !Money.Dusted(Run(v, s, commands).account) {
        StepKeeps(v, before, commands[n]);
      }
    }
  }

  /** In particular from a fresh exchange. */
  lemma LedgersAgree(v: Venue, startingCash: real, commands: seq<Command>)
    requires AdmissibleRun(v, Opened(startingCash), commands)
    ensures var t := Run(v, Opened(startingCash), commands);
            !Money.Dusted(t.account) ==> Orderly(t)
  {
    RunKeepsOrder(v, Opened(startingCash), commands);
  }
}
