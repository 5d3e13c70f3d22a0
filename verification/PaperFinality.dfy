/** Terminal orders are final: which commands leave a finished order alone, and exactly which
    resubmissions do not. */
module PaperFinality {
  import opened Prelude
  import opened Orders
  import opened Portfolio
  import opened PaperExchange
  import Ledger = PaperLedger
  import Lives = PaperOrders

  /** The order is filed, finished, and its id is not one the exchange could still generate. */
  predicate Finished(s: State, id: OrderId) {
    && id in s.orders && Terminal(s.orders[id].status)
    && (id.Generated? ==> id.sequence <= s.orderSeq)
  }

  /** The order's entry in the table and its share of the fill log are the same. */
  predicate SameRecord(s: State, t: State, id: OrderId) {
    && id in s.orders && id in t.orders && t.orders[id] == s.orders[id]
    && FilledFor(t.fills, id) == FilledFor(s.fills, id) && FeesFor(t.fills, id) == FeesFor(s.fills, id)
  }

  predicate Stands(s: State, t: State, id: OrderId) { SameRecord(s, t, id) && s.orderSeq <= t.orderSeq }

  lemma SameOrdersStand(s: State, t: State, id: OrderId)
    requires Ledger.SameOrders(s, t) && id in s.orders
    ensures Stands(s, t, id)
  {
  }

  // ----- fills of other orders -----

  lemma SettledStands(s: State, own: OrderId, f: Fill, id: OrderId)
    requires own in s.orders && id in s.orders && f.order == own != id
    ensures Stands(s, Settled(s, own, f).state, id)
  {
    FillAppended(s.fills, f);
  }

  lemma FillStands(v: Venue, s: State, own: OrderId, price: real, id: OrderId)
    requires own in s.orders && id in s.orders && own != id
    ensures Stands(s, FillTriggered(v, s, own, price).state, id)
  {
    var o := s.orders[own];
    var at := if o.kind == LIMIT || o.kind == STOP_LIMIT then LimitOr(o, price) else price;
    SettledStands(s, own, NextFill(v, s, own, at, o.kind == LIMIT), id);
  }

  lemma {:induction false} MatchStands(v: Venue, s: State, ids: seq<OrderId>, price: real, id: OrderId)
    requires (forall i :: i in ids ==> i in s.orders) && id in s.orders && id !in ids
    ensures Stands(s, MatchOrders(v, s, ids, price).state, id)
  {
    if ids != [] {
      MatchStands(v, s, ids[..|ids| - 1], price, id);
      FillStands(v, MatchOrders(v, s, ids[..|ids| - 1], price).state, ids[|ids| - 1], price, id);
    }
  }

  lemma PriceUpdateStands(v: Venue, s: State, symbol: string, price: real, id: OrderId)
    requires Finished(s, id)
    ensures Stands(s, PriceUpdate(v, s, symbol, price).state, id)
  {
    var priced, ids := Priced(s, symbol, price), OpenIds(s.orders, s.book, Some(symbol));
    MatchStands(v, priced, ids, price, id);
    Ledger.ManageSame(v, MatchOrders(v, priced, ids, price).state, symbol, price);
  }

  // ----- submissions under other ids -----

  lemma StoredStands(s: State, o: Order, order: Order, id: OrderId)
    requires Finished(s, id) && o.id != Some(id) && order.id == Admitted(s, o).1.id
    ensures Stands(s, Stored(Admitted(s, o).0, order), id)
  {
  }

  lemma TurnedAwayStands(v: Venue, s: State, o: Order, reason: string, id: OrderId)
    requires Finished(s, id) && o.id != Some(id)
    ensures Stands(s, TurnedAway(v, s, o, reason), id)
  {
    var (t, order) := Admitted(s, o);
    var record := order.(status := REJECTED, reason := reason);
    StoredStands(s, o, record, id);
    Ledger.ApiFailedSame(v, Stored(t, record));
  }

  lemma AcceptedStands(v: Venue, s: State, o: Order, price: real, id: OrderId)
    requires Finished(s, id) && o.id != Some(id)
    ensures Stands(s, Accepted(v, s, o, price).state, id)
  {
    var kept, own := Arrived(v, s, o, price), Admitted(s, o).1.id.value;
    StoredStands(s, o, Submitted(v, Admitted(s, o).1, price), id);
    SettledStands(kept, own, NextFill(v, kept, own, price, false), id);
    SettledStands(kept, own, NextFill(v, kept, own, LimitOr(o, price), true), id);
  }

  lemma CreateStands(v: Venue, s: State, o: Order, market: Option<real>, id: OrderId)
    requires Finished(s, id) && o.id != Some(id)
    ensures Stands(s, CreateOrder(v, s, o, market).state, id)
  {
    var refusal := IntakeRefusal(v, s, o, market);
    if refusal.Some? {
      TurnedAwayStands(v, s, o, refusal.value, id);
    } else if MayBecome(o.status, SUBMITTED) {
      AcceptedStands(v, s, o, QuotedPrice(s, o, market).value, id);
    }
  }

  // ----- the other commands -----

  lemma {:induction false} CancelAllStands(s: State, ids: seq<OrderId>, id: OrderId)
    requires Finished(s, id)
    ensures Stands(s, CancelAll(s, ids), id)
  {
    if ids != [] {
      CancelAllStands(s, ids[..|ids| - 1], id);
    }
  }

  lemma EndOfDayStands(v: Venue, s: State, symbols: seq<string>, id: OrderId)
    requires Finished(s, id)
    ensures Stands(s, EndOfDay(v, s, symbols).state, id)
  {
    var cancelled := CancelAll(s, OpenIds(s.orders, s.book, None));
    CancelAllStands(s, OpenIds(s.orders, s.book, None), id);
    Ledger.FlattenedSame(v, cancelled, symbols);
  }

  /** The command submits an order under the id, and it lands. */
  predicate Resubmits(v: Venue, s: State, c: Command, id: OrderId) {
    c.Create? && c.order.id == Some(id) && Lands(v, s, c.order, c.market)
  }

  /** No other command touches a finished order or fills it. */
  lemma FinishedOrderStands(v: Venue, s: State, c: Command, id: OrderId)
    requires Finished(s, id) && !Resubmits(v, s, c, id)
    ensures Stands(s, Step(v, s, c).state, id)
  {
    match c
    case Create(o, market) =>
      if o.id != Some(id) {
        CreateStands(v, s, o, market, id);
      }
    case Price(symbol, price) => PriceUpdateStands(v, s, symbol, price, id);
    case DayEnd(listing) => EndOfDayStands(v, s, listing, id);
    case Cancel(_) | Expire(_) =>
    case TakeSnapshot =>
    case _ =>
      Ledger.SettingSame(v, s, c);
      SameOrdersStand(s, Setting(v, s, c), id);
  }

  // ----- what a resubmission leaves -----

  /** The fill an accepted order is tried with at once, if any. */
  function FirstFill(v: Venue, s: State, o: Order, price: real): Option<Fill> {
    var kept, id := Arrived(v, s, o, price), Admitted(s, o).1.id.value;
    if o.kind == MARKET then Some(NextFill(v, kept, id, price, false))
    else if o.kind == LIMIT && LimitTriggered(o, price) then Some(NextFill(v, kept, id, LimitOr(o, price), true))
    else None
  }

  /** The refusal an accepted order meets at the portfolio, if any. */
  function TradeRefusal(v: Venue, s: State, o: Order, price: real): Option<Refusal> {
    var fill := FirstFill(v, s, o, price);
    if fill.None? then None
    else Traded(s.account, Submitted(v, o, price), fill.value.quantity, fill.value.price, fill.value.fee).1
  }

  /** The record of a submission that is turned away, on arrival or by the portfolio. */
  function TurnedAwayAs(v: Venue, s: State, o: Order, market: Option<real>): Option<Order> {
    var order, refusal := Admitted(s, o).1, IntakeRefusal(v, s, o, market);
    if refusal.Some? then Some(order.(status := REJECTED, reason := refusal.value))
    else
      var price := QuotedPrice(s, o, market).value;
      var traded := TradeRefusal(v, s, o, price);
      if traded.None? then None
      else Some(Submitted(v, order, price).(status := REJECTED, reason := RefusalText(traded.value)))
  }

  /** Nothing is traded in a quantity that is not positive. */
  lemma TradesArePositive(a: Account, o: Order, quantity: real, price: real, fee: real)
    requires Traded(a, o, quantity, price, fee).1.None?
    ensures 0.0 < quantity
  {
  }

  /** A fill attempt on a submitted order rejects it and logs nothing, or logs a positive fill. */
  lemma SettledRecord(s: State, id: OrderId, f: Fill)
    requires id in s.orders && s.orders[id].status == SUBMITTED && f.order == id
    ensures var o, t := s.orders[id], Settled(s, id, f).state;
            var refusal := Traded(s.account, o, f.quantity, f.price, f.fee).1;
            if refusal.Some? then
              t.orders[id] == o.(status := REJECTED, reason := RefusalText(refusal.value)) && t.fills == s.fills
            else FilledFor(s.fills, id) < FilledFor(t.fills, id)
  {
    FillAppended(s.fills, f);
    var o := s.orders[id];
    if Traded(s.account, o, f.quantity, f.price, f.fee).1.None? {
      TradesArePositive(s.account, o, f.quantity, f.price, f.fee);
    }
  }

  lemma AcceptedRecord(v: Venue, s: State, o: Order, price: real)
    ensures var t, id := Accepted(v, s, o, price).state, Admitted(s, o).1.id.value;
            var refusal := TradeRefusal(v, s, o, price);
            && id in t.orders
            && (if refusal.Some? then
                  t.orders[id] == Submitted(v, Admitted(s, o).1, price)
                    .(status := REJECTED, reason := RefusalText(refusal.value))
                  && t.fills == s.fills
                else IsOpen(t.orders[id].status) || FilledFor(s.fills, id) < FilledFor(t.fills, id))
  {
    var kept, id, fill := Arrived(v, s, o, price), Admitted(s, o).1.id.value, FirstFill(v, s, o, price);
    if fill.Some? {
      SettledRecord(kept, id, fill.value);
      SameTrade(v, s, o, price, fill.value);
    }
  }

  /** The id an order is given makes no difference to its trade. */
  lemma SameTrade(v: Venue, s: State, o: Order, price: real, f: Fill)
    ensures var kept, id := Arrived(v, s, o, price), Admitted(s, o).1.id.value;
            Traded(kept.account, kept.orders[id], f.quantity, f.price, f.fee)
            == Traded(s.account, Submitted(v, o, price), f.quantity, f.price, f.fee)
  {
  }

  /** A submission that lands is turned away under its record with nothing logged, or is left open,
      or has a new fill. */
  lemma LandedRecord(v: Venue, s: State, o: Order, market: Option<real>)
    requires Lands(v, s, o, market)
    ensures var t, id := CreateOrder(v, s, o, market).state, Admitted(s, o).1.id.value;
            var record := TurnedAwayAs(v, s, o, market);
            && id in t.orders
            && (if record.Some? then t.orders[id] == record.value && t.fills == s.fills
                else IsOpen(t.orders[id].status) || FilledFor(s.fills, id) < FilledFor(t.fills, id))
  {
    var refusal := IntakeRefusal(v, s, o, market);
    if refusal.Some? {
      var (t, order) := Admitted(s, o);
      Ledger.ApiFailedSame(v, Stored(t, order.(status := REJECTED, reason := refusal.value)));
    } else {
      AcceptedRecord(v, s, o, QuotedPrice(s, o, market).value);
    }
  }

  /** The command replaces a finished order: a submission under its id that lands, unless it is
      turned away and comes out as the very record that is there already. */
  predicate Overwrites(v: Venue, s: State, c: Command, id: OrderId)
    requires id in s.orders
  {
    Resubmits(v, s, c, id) && TurnedAwayAs(v, s, c.order, c.market) != Some(s.orders[id])
  }

  lemma ResubmissionRecord(v: Venue, s: State, c: Command, id: OrderId)
    requires Finished(s, id) && Resubmits(v, s, c, id)
    ensures SameRecord(s, Step(v, s, c).state, id) <==> !Overwrites(v, s, c, id)
  {
    LandedRecord(v, s, c.order, c.market);
  }

  /** Terminal orders are final against everything but resubmission, and exactly which of those
      they are not final against: for every order, command and state. */
  lemma FinishedOrderStandsIff(v: Venue, s: State, c: Command, id: OrderId)
    requires Finished(s, id)
    ensures Stands(s, Step(v, s, c).state, id) <==> !Overwrites(v, s, c, id)
  {
    if Resubmits(v, s, c, id) {
      ResubmissionRecord(v, s, c, id);
      Lives.CreatedSequence(v, s, c.order, c.market);
    } else {
      FinishedOrderStands(v, s, c, id);
    }
  }

  /** So an order that is filled, cancelled or expired is replaced by every submission under its id
      that lands, were it the same order again. */
  lemma SettledOrderStandsIff(v: Venue, s: State, c: Command, id: OrderId)
    requires Finished(s, id) && s.orders[id].status != REJECTED
    ensures Stands(s, Step(v, s, c).state, id) <==> !Resubmits(v, s, c, id)
  {
    FinishedOrderStandsIff(v, s, c, id);
  }

  /** The ordinary retry: an order sent again under its id and its client id is refused as a
      duplicate, and the refusal takes the place of the first record, whatever had been filled. */
  lemma DuplicateOverwrites(v: Venue, s: State, o: Order, market: Option<real>, later: Option<real>)
    requires o.id.Some? && o.clientId != ""
    ensures var t := CreateOrder(v, s, o, market).state;
            var u := CreateOrder(v, t, o, later).state;
            && o.id.value in u.orders && u.fills == t.fills
            && u.orders[o.id.value] == o.(status := REJECTED, reason := "DUPLICATE_ORDER")
  {
    var t := CreateOrder(v, s, o, market).state;
    Lives.CreateNotesClient(v, s, o, market);
    LandedRecord(v, t, o, later);
  }

  // ----- runs -----

  lemma {:induction false} FinishedOrderStandsForever(v: Venue, s: State, commands: seq<Command>, id: OrderId)
    requires Finished(s, id)
    requires forall i :: 0 <= i < |commands| ==> KeptBy(v, Run(v, s, commands[..i]), commands[i], id)
    ensures Stands(s, Run(v, s, commands), id)
  {
    if commands != [] {
      var n := |commands| - 1;
      assert forall i :: 0 <= i < n ==> commands[..n][..i] == commands[..i];
      FinishedOrderStandsForever(v, s, commands[..n], id);
      FinishedOrderStandsIff(v, Run(v, s, commands[..n]), commands[n], id);
    }
  }

  predicate KeptBy(v: Venue, s: State, c: Command, id: OrderId) { id in s.orders && !Overwrites(v, s, c, id) }

  /** Over a run: the order stands throughout exactly when no command replaces it. */
  lemma FinishedOrderStandsForeverIff(v: Venue, s: State, commands: seq<Command>, id: OrderId)
    requires Finished(s, id)
    ensures (forall n :: 0 <= n <= |commands| ==> Stands(s, Run(v, s, commands[..n]), id))
       <==> (forall i :: 0 <= i < |commands| ==> KeptBy(v, Run(v, s, commands[..i]), commands[i], id))
  {
    if forall n :: 0 <= n <= |commands| ==> Stands(s, Run(v, s, commands[..n]), id) {
      forall i | 0 <= i < |commands|
        ensures KeptBy(v, Run(v, s, commands[..i]), commands[i], id)
      {
        assert Stands(s, Run(v, s, commands[..i]), id) && Stands(s, Run(v, s, commands[..i + 1]), id);
        RunNext(v, s, commands, i);
        StandsOneStep(v, s, Run(v, s, commands[..i]), commands[i], id);
      }
    }
    if forall i :: 0 <= i < |commands| ==> KeptBy(v, Run(v, s, commands[..i]), commands[i], id) {
      forall n | 0 <= n <= |commands|
        ensures Stands(s, Run(v, s, commands[..n]), id)
      {
        assert forall i :: 0 <= i < n ==> commands[..n][..i] == commands[..i];
        FinishedOrderStandsForever(v, s, commands[..n], id);
      }
    }
  }

  lemma RunNext(v: Venue, s: State, commands: seq<Command>, i: nat)
    requires i < |commands|
    ensures Run(v, s, commands[..i + 1]) == Step(v, Run(v, s, commands[..i]), commands[i]).state
  {
    assert commands[..i + 1][..i] == commands[..i];
  }

  lemma StandsOneStep(v: Venue, s: State, t: State, c: Command, id: OrderId)
    requires Finished(s, id) && Stands(s, t, id) && Stands(s, Step(v, t, c).state, id)
    ensures KeptBy(v, t, c, id)
  {
    if Resubmits(v, t, c, id) {
      ResubmissionRecord(v, t, c, id);
    }
  }
}
