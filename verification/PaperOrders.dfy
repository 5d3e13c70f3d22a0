/** The life of single orders: what a refusal leaves alone, what a price fills, and what a reused id
    does. */
module PaperOrders {
  import opened Prelude
  import opened Orders
  import opened Portfolio
  import opened PaperExchange
  import Ledger = PaperLedger
  import Money = PaperMoney

  // ----- refusals on arrival -----

  /** An order refused on arrival moves no money, fills nothing and touches no other order. */
  lemma RefusedOnArrivalMovesNothing(v: Venue, s: State, o: Order, market: Option<real>, other: OrderId)
    requires IntakeRefusal(v, s, o, market).Some? && other in s.orders && other != Admitted(s, o).1.id.value
    ensures var t := CreateOrder(v, s, o, market).state;
            t.account == s.account && t.fills == s.fills && other in t.orders && t.orders[other] == s.orders[other]
  {
    var (t, order) := Admitted(s, o);
    var reason := IntakeRefusal(v, s, o, market).value;
    Ledger.ApiFailedSame(v, Stored(t, order.(status := REJECTED, reason := reason)));
  }

  lemma SettledKeepsClients(s: State, id: OrderId, f: Fill)
    requires id in s.orders
    ensures Settled(s, id, f).state.clients == s.clients
  {
  }

  lemma TriggeredKeepsClients(v: Venue, s: State, id: OrderId, price: real)
    requires id in s.orders
    ensures FillTriggered(v, s, id, price).state.clients == s.clients
  {
  }

  lemma {:induction false} MatchKeepsClients(v: Venue, s: State, ids: seq<OrderId>, price: real)
    requires forall id :: id in ids ==> id in s.orders
    ensures MatchOrders(v, s, ids, price).state.clients == s.clients
  {
    if ids != [] {
      MatchKeepsClients(v, s, ids[..|ids| - 1], price);
      var before := MatchOrders(v, s, ids[..|ids| - 1], price).state;
      TriggeredKeepsClients(v, before, ids[|ids| - 1], price);
    }
  }

  lemma CreateNotesClient(v: Venue, s: State, o: Order, market: Option<real>)
    ensures CreateOrder(v, s, o, market).state.clients
        == if o.clientId != "" then s.clients + {o.clientId} else s.clients
  {
    var refusal := IntakeRefusal(v, s, o, market);
    if refusal.None? && MayBecome(o.status, SUBMITTED) {
      AcceptedNotesClient(v, s, o, QuotedPrice(s, o, market).value);
    }
  }

  lemma AcceptedNotesClient(v: Venue, s: State, o: Order, price: real)
    ensures Accepted(v, s, o, price).state.clients == if o.clientId != "" then s.clients + {o.clientId} else s.clients
  {
    var kept, id := Arrived(v, s, o, price), Admitted(s, o).1.id.value;
    SettledKeepsClients(kept, id, NextFill(v, kept, id, price, false));
    SettledKeepsClients(kept, id, NextFill(v, kept, id, LimitOr(o, price), true));
  }

  lemma {:induction false} CancelAllKeepsClients(s: State, ids: seq<OrderId>)
    ensures CancelAll(s, ids).clients == s.clients
  {
    if ids != [] {
      CancelAllKeepsClients(s, ids[..|ids| - 1]);
    }
  }

  lemma {:induction false} FlattenedKeepsClients(v: Venue, s: State, symbols: seq<string>)
    ensures Flattened(v, s, symbols).state.clients == s.clients
  {
    if symbols != [] {
      FlattenedKeepsClients(v, s, symbols[..|symbols| - 1]);
    }
  }

  lemma ManageKeepsClients(v: Venue, s: State, symbol: string, price: real)
    ensures ManagePosition(v, s, symbol, price).state.clients == s.clients
  {
  }

  /** No command forgets a client id. */
  lemma StepKeepsClients(v: Venue, s: State, c: Command)
    ensures s.clients <= Step(v, s, c).state.clients
  {
    match c
    case Create(o, market) => CreateNotesClient(v, s, o, market);
    case Price(symbol, price) =>
      var priced, ids := Priced(s, symbol, price), OpenIds(s.orders, s.book, Some(symbol));
      MatchKeepsClients(v, priced, ids, price);
      ManageKeepsClients(v, MatchOrders(v, priced, ids, price).state, symbol, price);
    case DayEnd(listing) =>
      CancelAllKeepsClients(s, OpenIds(s.orders, s.book, None));
      FlattenedKeepsClients(v, CancelAll(s, OpenIds(s.orders, s.book, None)), listing);
    case _ =>
  }

  lemma {:induction false} RunKeepsClients(v: Venue, s: State, commands: seq<Command>)
    ensures s.clients <= Run(v, s, commands).clients
  {
    if commands != [] {
      var n := |commands| - 1;
      RunKeepsClients(v, s, commands[..n]);
      StepKeepsClients(v, Run(v, s, commands[..n]), commands[n]);
    }
  }

  /** A client id passes once: whatever became of the first order that brought it and whatever
      happens in between, resets included, every later order with it is refused as a duplicate. */
  lemma ClientIdsPassOnce(v: Venue, s: State, first: Order, market: Option<real>, commands: seq<Command>,
                          second: Order, later: Option<real>)
    requires first.clientId != "" && second.clientId == first.clientId
    ensures var t := Run(v, CreateOrder(v, s, first, market).state, commands);
            IntakeRefusal(v, t, second, later) == Some("DUPLICATE_ORDER")
  {
    CreateNotesClient(v, s, first, market);
    RunKeepsClients(v, CreateOrder(v, s, first, market).state, commands);
  }

  // ----- triggered orders -----

  /** An attempt that does not raise leaves its mark on an open order: a fill or a rejection. */
  lemma SettledTouches(s: State, id: OrderId, f: Fill)
    requires id in s.orders && IsOpen(s.orders[id].status) && Ledger.QuantitiesFit(s.orders[id])
    requires f.quantity == FillQuantity(s, s.orders[id]) && !Settled(s, id, f).raised
    ensures Settled(s, id, f).state.orders[id] != s.orders[id]
  {
  }

  lemma FillTouchesIffTriggered(v: Venue, s: State, id: OrderId, price: real)
    requires id in s.orders && IsOpen(s.orders[id].status) && Ledger.QuantitiesFit(s.orders[id])
    requires !FillTriggered(v, s, id, price).raised
    ensures FillTriggered(v, s, id, price).state.orders[id] != s.orders[id] <==> Triggered(s.orders[id], price)
  {
    var o := s.orders[id];
    if Triggered(o, price) {
      var at := if o.kind == LIMIT || o.kind == STOP_LIMIT then LimitOr(o, price) else price;
      SettledTouches(s, id, NextFill(v, s, id, at, o.kind == LIMIT));
    }
  }

  lemma {:induction false} MatchTouchesIffTriggered(v: Venue, s: State, ids: seq<OrderId>, price: real, id: OrderId)
    requires Ledger.Distinct(ids) && id in ids && forall i :: i in ids ==> i in s.orders
    requires IsOpen(s.orders[id].status) && Ledger.QuantitiesFit(s.orders[id])
    requires !MatchOrders(v, s, ids, price).raised
    ensures MatchOrders(v, s, ids, price).state.orders[id] != s.orders[id] <==> Triggered(s.orders[id], price)
  {
    var init, last := ids[..|ids| - 1], ids[|ids| - 1];
    var before := MatchOrders(v, s, init, price).state;
    if id == last {
      Ledger.MatchTouchesListed(v, s, init, price, id);
      FillTouchesIffTriggered(v, before, id, price);
    } else {
      MatchTouchesIffTriggered(v, s, init, price, id);
    }
  }

  /** A price update that completes changes exactly the open orders of its symbol (of every symbol
      where it names none) that the price triggers: none of those is passed over, and no other
      order moves. */
  lemma UpdateFillsExactlyTheTriggered(v: Venue, s: State, symbol: string, price: real, id: OrderId)
    requires Ledger.Orderly(s) && id in s.orders && !PriceUpdate(v, s, symbol, price).raised
    ensures var o, t := s.orders[id], PriceUpdate(v, s, symbol, price).state;
            id in t.orders && (t.orders[id] != o <==> IsOpen(o.status) && Asks(Some(symbol), o) && Triggered(o, price))
  {
    var priced, ids := Priced(s, symbol, price), OpenIds(s.orders, s.book, Some(symbol));
    Ledger.OpenIdsDistinct(s.orders, s.book, Some(symbol));
    Ledger.ManageSame(v, MatchOrders(v, priced, ids, price).state, symbol, price);
    assert Ledger.OrderFits(s.orders[id], s.fills, id);
    if id in ids {
      MatchTouchesIffTriggered(v, priced, ids, price, id);
    } else {
      Ledger.MatchTouchesListed(v, priced, ids, price, id);
    }
  }

  // ----- reused ids -----

  lemma SettledAgrees(s: State, id: OrderId, f: Fill)
    requires id in s.orders && f.order == id
    ensures var t := Settled(s, id, f).state;
            Ledger.Agrees(t.orders[id], t.fills, id) <==> Ledger.Agrees(s.orders[id], s.fills, id)
  {
    FillAppended(s.fills, f);
  }

  lemma TurnedAwayAgrees(v: Venue, s: State, o: Order, reason: string)
    ensures var t, id := TurnedAway(v, s, o, reason), Admitted(s, o).1.id.value;
            id in t.orders && (Ledger.Agrees(t.orders[id], t.fills, id) <==> Ledger.Agrees(o, s.fills, id))
  {
    var (t, order) := Admitted(s, o);
    Ledger.ApiFailedSame(v, Stored(t, order.(status := REJECTED, reason := reason)));
  }

  lemma AcceptedAgrees(v: Venue, s: State, o: Order, price: real)
    ensures var t, id := Accepted(v, s, o, price).state, Admitted(s, o).1.id.value;
            id in t.orders && (Ledger.Agrees(t.orders[id], t.fills, id) <==> Ledger.Agrees(o, s.fills, id))
  {
    var kept, id := Arrived(v, s, o, price), Admitted(s, o).1.id.value;
    assert kept.fills == s.fills && kept.orders[id].filled == o.filled && kept.orders[id].fees == o.fees;
    SettledAgrees(kept, id, NextFill(v, kept, id, price, false));
    SettledAgrees(kept, id, NextFill(v, kept, id, LimitOr(o, price), true));
  }

  /** For any order handed to `CreateOrder` that ends up in the table, its totals agree with the
      fill log exactly when they already did on arrival: the exchange adds the same fill to
      both sides and corrects neither. */
  lemma CreatedOrderAgreesIff(v: Venue, s: State, o: Order, market: Option<real>)
    ensures var r, id := CreateOrder(v, s, o, market), Admitted(s, o).1.id.value;
            IntakeRefusal(v, s, o, market).Some? || MayBecome(o.status, SUBMITTED) ==>
              && id in r.state.orders
              && (Ledger.Agrees(r.state.orders[id], r.state.fills, id) <==> Ledger.Agrees(o, s.fills, id))
  {
    var refusal := IntakeRefusal(v, s, o, market);
    if refusal.Some? {
      TurnedAwayAgrees(v, s, o, refusal.value);
    } else if MayBecome(o.status, SUBMITTED) {
      AcceptedAgrees(v, s, o, QuotedPrice(s, o, market).value);
    }
  }

  lemma SettledKeepsSequence(s: State, id: OrderId, f: Fill)
    requires id in s.orders
    ensures Settled(s, id, f).state.orderSeq == s.orderSeq
  {
  }

  lemma CreatedSequence(v: Venue, s: State, o: Order, market: Option<real>)
    ensures CreateOrder(v, s, o, market).state.orderSeq == s.orderSeq + 1
  {
    var refusal := IntakeRefusal(v, s, o, market);
    if refusal.Some? {
      var (t, order) := Admitted(s, o);
      Ledger.ApiFailedSame(v, Stored(t, order.(status := REJECTED, reason := refusal.value)));
    } else if MayBecome(o.status, SUBMITTED) {
      var price := QuotedPrice(s, o, market).value;
      var kept, id := Arrived(v, s, o, price), Admitted(s, o).1.id.value;
      SettledKeepsSequence(kept, id, NextFill(v, kept, id, price, false));
      SettledKeepsSequence(kept, id, NextFill(v, kept, id, LimitOr(o, price), true));
    }
  }

  /** So a second order under the id of one that has fills loses them: whatever it asks for, its
      totals no longer match the log. Nor does the table stay in sequence when an order takes an id
      the exchange has yet to generate. */
  lemma ReusedIdLosesFills(v: Venue, s: State, o: Order, market: Option<real>)
    requires Ledger.Orderly(s) && o.id.Some? && !Ledger.IsFree(s, o.id.value)
    requires o.filled == 0.0 && o.fees == 0.0 && Lands(v, s, o, market)
    ensures !Ledger.Orderly(CreateOrder(v, s, o, market).state)
  {
    var id := o.id.value;
    CreatedOrderAgreesIff(v, s, o, market);
    if id.Generated? && id.sequence > s.orderSeq + 1 {
      CreatedSequence(v, s, o, market);
    } else {
      assert Ledger.OrderFits(s.orders[id], s.fills, id);
    }
  }

  /** For an order that arrives with zero totals and lands, the ledger stays in agreement exactly
      when its id is free, or the exchange is to generate it. */
  lemma LedgerAgreesIff(v: Venue, s: State, o: Order, market: Option<real>)
    requires Sound(s.account) && Ledger.Orderly(s) && o.filled == 0.0 && o.fees == 0.0 && Lands(v, s, o, market)
    requires !Money.Dusted(CreateOrder(v, s, o, market).state.account)
    ensures Ledger.Orderly(CreateOrder(v, s, o, market).state) <==> (o.id.Some? ==> Ledger.IsFree(s, o.id.value))
  {
    if o.id.Some? && !Ledger.IsFree(s, o.id.value) {
      ReusedIdLosesFills(v, s, o, market);
    } else {
      Ledger.CreateKeeps(v, s, o, market);
    }
  }

  /** The ledger agrees after every command of a run. */
  ghost predicate OrderlyThroughout(v: Venue, s: State, commands: seq<Command>) {
    Ledger.Orderly(Run(v, s, commands))
    && (commands != [] ==> OrderlyThroughout(v, s, commands[..|commands| - 1]))
  }

  lemma OneMoreAgreesIff(v: Venue, s: State, c: Command)
    requires Sound(s.account) && Ledger.Orderly(s) && !Money.Dusted(Step(v, s, c).state.account)
    requires c.Create? ==> c.order.filled == 0.0 && c.order.fees == 0.0
    ensures Ledger.Orderly(Step(v, s, c).state) <==> Ledger.Admissible(v, s, c)
  {
    if Ledger.Admissible(v, s, c) {
      Ledger.StepKeeps(v, s, c);
    } else {
      LedgerAgreesIff(v, s, c.order, c.market);
    }
  }

  /** Over a run of orders that arrive with zero totals: the ledger agrees after every command
      exactly when every order that lands has a free id when it arrives. */
  lemma {:induction false} LedgersAgreeIff(v: Venue, startingCash: real, commands: seq<Command>)
    requires forall i :: 0 <= i < |commands| && commands[i].Create? ==>
      commands[i].order.filled == 0.0 && commands[i].order.fees == 0.0
    requires !Money.Dusted(Run(v, Opened(startingCash), commands).account)
    ensures OrderlyThroughout(v, Opened(startingCash), commands)
       <==> Ledger.AdmissibleRun(v, Opened(startingCash), commands)
  {
    var s := Opened(startingCash);
    if commands == [] {
      Ledger.LedgersAgree(v, startingCash, []);
    } else {
      var k := |commands| - 1;
      var before, c := Run(v, s, commands[..k]), commands[k];
      Money.RunKeeps(v, s, commands[..k]);
      Money.StepKeeps(v, before, c);
      LedgersAgreeIff(v, startingCash, commands[..k]);
      if OrderlyThroughout(v, s, commands[..k]) {
        OneMoreAgreesIff(v, before, c);
      }
    }
  }

  // ----- totals over any run -----

  /** Every order's totals are the sums over its fills. */
  ghost predicate TotalsAgree(s: State) {
    forall id :: id in s.orders ==> Ledger.Agrees(s.orders[id], s.fills, id)
  }

  /** The orders listed before are still there, and agree with the log exactly where they did. */
  ghost predicate AgreesAlike(s: State, t: State, except: set<OrderId>) {
    forall id :: id in s.orders && id !in except ==>
      id in t.orders && (Ledger.Agrees(t.orders[id], t.fills, id) <==> Ledger.Agrees(s.orders[id], s.fills, id))
  }

  lemma AlikeThrough(s: State, t: State, u: State, except: set<OrderId>)
    requires AgreesAlike(s, t, except) && AgreesAlike(t, u, except)
    ensures AgreesAlike(s, u, except)
  {
  }

  lemma SettledAgreesAlike(s: State, id: OrderId, f: Fill, except: set<OrderId>)
    requires id in s.orders && f.order == id
    ensures AgreesAlike(s, Settled(s, id, f).state, except)
  {
    SettledAgrees(s, id, f);
    FillAppended(s.fills, f);
  }

  lemma FillAgreesAlike(v: Venue, s: State, id: OrderId, price: real)
    requires id in s.orders
    ensures AgreesAlike(s, FillTriggered(v, s, id, price).state, {})
  {
    var o := s.orders[id];
    var at := if o.kind == LIMIT || o.kind == STOP_LIMIT then LimitOr(o, price) else price;
    SettledAgreesAlike(s, id, NextFill(v, s, id, at, o.kind == LIMIT), {});
  }

  lemma {:induction false} MatchAgreesAlike(v: Venue, s: State, ids: seq<OrderId>, price: real)
    requires forall id :: id in ids ==> id in s.orders
    ensures AgreesAlike(s, MatchOrders(v, s, ids, price).state, {})
  {
    if ids != [] {
      var before := MatchOrders(v, s, ids[..|ids| - 1], price).state;
      MatchAgreesAlike(v, s, ids[..|ids| - 1], price);
      FillAgreesAlike(v, before, ids[|ids| - 1], price);
      AlikeThrough(s, before, FillTriggered(v, before, ids[|ids| - 1], price).state, {});
    }
  }

  lemma PriceAgreesAlike(v: Venue, s: State, symbol: string, price: real)
    ensures AgreesAlike(s, PriceUpdate(v, s, symbol, price).state, {})
    ensures PriceUpdate(v, s, symbol, price).state.orders.Keys == s.orders.Keys
  {
    var priced, ids := Priced(s, symbol, price), OpenIds(s.orders, s.book, Some(symbol));
    MatchAgreesAlike(v, priced, ids, price);
    Ledger.ManageSame(v, MatchOrders(v, priced, ids, price).state, symbol, price);
  }

  lemma {:induction false} CancelAllAgreesAlike(s: State, ids: seq<OrderId>)
    ensures AgreesAlike(s, CancelAll(s, ids), {}) && CancelAll(s, ids).orders.Keys == s.orders.Keys
  {
    if ids != [] {
      CancelAllAgreesAlike(s, ids[..|ids| - 1]);
    }
  }

  lemma DayEndAgreesAlike(v: Venue, s: State, symbols: seq<string>)
    ensures AgreesAlike(s, EndOfDay(v, s, symbols).state, {})
    ensures EndOfDay(v, s, symbols).state.orders.Keys == s.orders.Keys
  {
    var ids := OpenIds(s.orders, s.book, None);
    CancelAllAgreesAlike(s, ids);
    Ledger.FlattenedSame(v, CancelAll(s, ids), symbols);
  }

  lemma OthersAgreeAlike(v: Venue, s: State, o: Order, market: Option<real>)
    requires Lands(v, s, o, market)
    ensures var t, id := CreateOrder(v, s, o, market).state, Admitted(s, o).1.id.value;
            AgreesAlike(s, t, {id}) && t.orders.Keys == s.orders.Keys + {id}
  {
    var refusal := IntakeRefusal(v, s, o, market);
    var (t, order) := Admitted(s, o);
    if refusal.Some? {
      Ledger.ApiFailedSame(v, Stored(t, order.(status := REJECTED, reason := refusal.value)));
    } else {
      var price := QuotedPrice(s, o, market).value;
      AcceptedAgreesAlike(v, s, o, price);
    }
  }

  lemma AcceptedAgreesAlike(v: Venue, s: State, o: Order, price: real)
    ensures var t, id := Accepted(v, s, o, price).state, Admitted(s, o).1.id.value;
            AgreesAlike(s, t, {id}) && t.orders.Keys == s.orders.Keys + {id}
  {
    var kept, id := Arrived(v, s, o, price), Admitted(s, o).1.id.value;
    assert AgreesAlike(s, kept, {id});
    SettledAgreesAlike(kept, id, NextFill(v, kept, id, price, false), {id});
    SettledAgreesAlike(kept, id, NextFill(v, kept, id, LimitOr(o, price), true), {id});
    AlikeThrough(s, kept, Accepted(v, s, o, price).state, {id});
  }

  /** An order that lands brings the totals that the log has under its id. */
  predicate BringsItsTotals(v: Venue, s: State, c: Command) {
    c.Create? && Lands(v, s, c.order, c.market) ==>
      Ledger.Agrees(c.order, s.fills, Admitted(s, c.order).1.id.value)
  }

  lemma StepTotalsIff(v: Venue, s: State, c: Command)
    requires TotalsAgree(s)
    ensures TotalsAgree(Step(v, s, c).state) <==> BringsItsTotals(v, s, c)
  {
    match c
    case Create(o, market) =>
      if Lands(v, s, o, market) {
        CreatedOrderAgreesIff(v, s, o, market);
        OthersAgreeAlike(v, s, o, market);
      }
    case Price(symbol, price) => PriceAgreesAlike(v, s, symbol, price);
    case DayEnd(listing) => DayEndAgreesAlike(v, s, listing);
    case Cancel(_) | Expire(_) =>
    case TakeSnapshot =>
    case _ => Ledger.SettingSame(v, s, c);
  }

  ghost predicate TotalsAgreeThroughout(v: Venue, s: State, commands: seq<Command>) {
    TotalsAgree(Run(v, s, commands))
    && (commands != [] ==> TotalsAgreeThroughout(v, s, commands[..|commands| - 1]))
  }

  ghost predicate AllBringTheirTotals(v: Venue, s: State, commands: seq<Command>) {
    commands != [] ==>
      var n := |commands| - 1;
      AllBringTheirTotals(v, s, commands[..n]) && BringsItsTotals(v, Run(v, s, commands[..n]), commands[n])
  }

  /** Over every run, of any orders and any closes: all totals agree with the log after every
      command exactly when every order that lands brings the totals the log has under its id. */
  lemma {:induction false} TotalsAgreeIff(v: Venue, startingCash: real, commands: seq<Command>)
    ensures TotalsAgreeThroughout(v, Opened(startingCash), commands)
       <==> AllBringTheirTotals(v, Opened(startingCash), commands)
  {
    if commands != [] {
      var s, n := Opened(startingCash), |commands| - 1;
      TotalsAgreeIff(v, startingCash, commands[..n]);
      if TotalsAgreeThroughout(v, s, commands[..n]) {
        StepTotalsIff(v, Run(v, s, commands[..n]), commands[n]);
      }
    }
  }
}
