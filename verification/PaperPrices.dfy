/** What fills cost: every fill trades its order's terms, a limit order's at exactly its limit. */
module PaperPrices {
  import opened Prelude
  import opened Costs
  import opened Orders
  import opened PaperExchange
  import Ledger = PaperLedger
  import Lives = PaperOrders

  // ----- the invariant -----

  /** A fill trades its order's symbol and side, and for a limit order its price. */
  predicate Honours(f: Fill, o: Order) {
    f.symbol == o.symbol && f.side == o.side && (o.kind == LIMIT ==> o.limit == Some(f.price))
  }

  ghost predicate AllHonoured(s: State) {
    forall i :: 0 <= i < |s.fills| ==> s.fills[i].order in s.orders && Honours(s.fills[i], s.orders[s.fills[i].order])
  }

  /** The terms of an order that nothing after its submission touches. */
  predicate SameTerms(o: Order, p: Order) {
    o.symbol == p.symbol && o.side == p.side && o.kind == p.kind && o.limit == p.limit
  }

  /** Generated ids are behind the sequence number. */
  ghost predicate IdsBehind(s: State) {
    forall id :: id in s.orders && id.Generated? ==> id.sequence <= s.orderSeq
  }

  /** Orders keep their terms, new ids are in sequence, and the log grows by fills that honour
      their order. */
  ghost predicate GrowsFairly(s: State, t: State) {
    && s.orderSeq <= t.orderSeq
    && (forall id :: id in t.orders && id !in s.orders && id.Generated? ==> id.sequence <= t.orderSeq)
    && (forall id :: id in s.orders ==> id in t.orders && SameTerms(s.orders[id], t.orders[id]))
    && s.fills <= t.fills
    && (forall i :: |s.fills| <= i < |t.fills| ==>
          t.fills[i].order in t.orders && Honours(t.fills[i], t.orders[t.fills[i].order]))
  }

  lemma GrowthKeepsHonour(s: State, t: State)
    requires AllHonoured(s) && IdsBehind(s) && GrowsFairly(s, t)
    ensures AllHonoured(t) && IdsBehind(t)
  {
    forall i | 0 <= i < |t.fills|
      ensures t.fills[i].order in t.orders && Honours(t.fills[i], t.orders[t.fills[i].order])
    {
      if i < |s.fills| {
        assert t.fills[i] == s.fills[i];
      }
    }
  }

  lemma GrowsThrough(s: State, t: State, u: State)
    requires GrowsFairly(s, t) && GrowsFairly(t, u)
    ensures GrowsFairly(s, u)
  {
    forall i | |s.fills| <= i < |u.fills|
      ensures u.fills[i].order in u.orders && Honours(u.fills[i], u.orders[u.fills[i].order])
    {
      if i < |t.fills| {
        assert u.fills[i] == t.fills[i];
      }
    }
  }

  lemma SameOrdersGrow(s: State, t: State)
    requires s.orders == t.orders && s.fills == t.fills && s.orderSeq <= t.orderSeq
    ensures GrowsFairly(s, t)
  {
  }

  // ----- operations -----

  lemma SettledGrows(s: State, id: OrderId, f: Fill)
    requires id in s.orders && f.order == id && Honours(f, s.orders[id])
    ensures GrowsFairly(s, Settled(s, id, f).state)
  {
    var t := Settled(s, id, f).state;
    assert SameTerms(s.orders[id], t.orders[id]);
    assert t.fills == s.fills || t.fills == s.fills + [f];
  }

  /** A fill attempt is made at the limit for every limit order. */
  lemma FillMarketGrows(v: Venue, s: State, id: OrderId, price: real, limitFill: bool)
    requires id in s.orders && (s.orders[id].kind == LIMIT ==> limitFill && s.orders[id].limit.Some?)
    ensures GrowsFairly(s, FillMarket(v, s, id, price, limitFill).state)
  {
    SettledGrows(s, id, NextFill(v, s, id, price, limitFill));
  }

  lemma FillTriggeredGrows(v: Venue, s: State, id: OrderId, price: real)
    requires id in s.orders
    ensures GrowsFairly(s, FillTriggered(v, s, id, price).state)
  {
    var o := s.orders[id];
    if Triggered(o, price) {
      FillMarketGrows(v, s, id, if o.kind == LIMIT || o.kind == STOP_LIMIT then LimitOr(o, price) else price,
                      o.kind == LIMIT);
    } else {
      SameOrdersGrow(s, s);
    }
  }

  lemma {:induction false} MatchGrows(v: Venue, s: State, ids: seq<OrderId>, price: real)
    requires forall id :: id in ids ==> id in s.orders
    ensures GrowsFairly(s, MatchOrders(v, s, ids, price).state)
  {
    if ids == [] {
      SameOrdersGrow(s, s);
    } else {
      var init, last := ids[..|ids| - 1], ids[|ids| - 1];
      var before := MatchOrders(v, s, init, price).state;
      MatchGrows(v, s, init, price);
      FillTriggeredGrows(v, before, last, price);
      GrowsThrough(s, before, FillTriggered(v, before, last, price).state);
    }
  }

  lemma PriceUpdateGrows(v: Venue, s: State, symbol: string, price: real)
    ensures GrowsFairly(s, PriceUpdate(v, s, symbol, price).state)
  {
    var priced, ids := Priced(s, symbol, price), OpenIds(s.orders, s.book, Some(symbol));
    var matched := MatchOrders(v, priced, ids, price).state;
    MatchGrows(v, priced, ids, price);
    Ledger.ManageSame(v, matched, symbol, price);
    SameOrdersGrow(matched, ManagePosition(v, matched, symbol, price).state);
    SameOrdersGrow(s, priced);
    GrowsThrough(s, priced, matched);
    GrowsThrough(s, matched, ManagePosition(v, matched, symbol, price).state);
  }

  /** Whatever is in the log under the id an order brings, the order could have been filled so; and
      the id is not one the exchange has yet to generate. */
  predicate Compatible(s: State, o: Order) {
    o.id.Some? ==>
      (o.id.value.Generated? ==> o.id.value.sequence <= s.orderSeq + 1)
      && forall i :: 0 <= i < |s.fills| && s.fills[i].order == o.id.value ==> Honours(s.fills[i], o)
  }

  lemma StoredHonours(s: State, o: Order, order: Order)
    requires AllHonoured(s) && IdsBehind(s) && Compatible(s, o)
    requires SameTerms(o, order) && order.id == Admitted(s, o).1.id
    ensures AllHonoured(Stored(Admitted(s, o).0, order)) && IdsBehind(Stored(Admitted(s, o).0, order))
  {
    var t := Stored(Admitted(s, o).0, order);
    forall i | 0 <= i < |t.fills|
      ensures t.fills[i].order in t.orders && Honours(t.fills[i], t.orders[t.fills[i].order])
    {
      assert s.fills[i].order in s.orders;
    }
  }

  /** An arriving order leaves every fill honoured, its own new one included. */
  lemma CreateHonours(v: Venue, s: State, o: Order, market: Option<real>)
    requires AllHonoured(s) && IdsBehind(s) && (Lands(v, s, o, market) ==> Compatible(s, o))
    ensures var t := CreateOrder(v, s, o, market).state;
            AllHonoured(t) && IdsBehind(t)
  {
    var refusal := IntakeRefusal(v, s, o, market);
    var (t, order) := Admitted(s, o);
    if refusal.Some? {
      var kept := Stored(t, order.(status := REJECTED, reason := refusal.value));
      StoredHonours(s, o, order.(status := REJECTED, reason := refusal.value));
      Ledger.ApiFailedSame(v, kept);
      SameOrdersGrow(kept, TurnedAway(v, s, o, refusal.value));
      GrowthKeepsHonour(kept, TurnedAway(v, s, o, refusal.value));
    } else if MayBecome(o.status, SUBMITTED) {
      AcceptedHonours(v, s, o, QuotedPrice(s, o, market).value);
    }
  }

  lemma AcceptedHonours(v: Venue, s: State, o: Order, price: real)
    requires AllHonoured(s) && IdsBehind(s) && Compatible(s, o)
    ensures var t := Accepted(v, s, o, price).state;
            AllHonoured(t) && IdsBehind(t)
  {
    var order := Admitted(s, o).1;
    var kept := Arrived(v, s, o, price);
    StoredHonours(s, o, Submitted(v, order, price));
    if o.kind == MARKET || (o.kind == LIMIT && LimitTriggered(o, price)) {
      FillMarketGrows(v, kept, order.id.value, if o.kind == MARKET then price else LimitOr(o, price), o.kind == LIMIT);
      GrowthKeepsHonour(kept, Accepted(v, s, o, price).state);
    }
  }

  /** A landed order is in the table on its own terms, and the log has only grown. */
  lemma LandedTerms(v: Venue, s: State, o: Order, market: Option<real>)
    requires Lands(v, s, o, market)
    ensures var t, id := CreateOrder(v, s, o, market).state, Admitted(s, o).1.id.value;
            id in t.orders && SameTerms(o, t.orders[id]) && s.fills <= t.fills
  {
    var refusal := IntakeRefusal(v, s, o, market);
    var (t, order) := Admitted(s, o);
    if refusal.Some? {
      Ledger.ApiFailedSame(v, Stored(t, order.(status := REJECTED, reason := refusal.value)));
    } else {
      var price := QuotedPrice(s, o, market).value;
      var kept := Arrived(v, s, o, price);
      if o.kind == MARKET || (o.kind == LIMIT && LimitTriggered(o, price)) {
        FillMarketGrows(v, kept, order.id.value, if o.kind == MARKET then price else LimitOr(o, price),
                        o.kind == LIMIT);
      }
    }
  }

  /** A landing order keeps fills honoured and ids in sequence exactly when it is compatible with
      the log. */
  lemma CompatibleIff(v: Venue, s: State, o: Order, market: Option<real>)
    requires AllHonoured(s) && IdsBehind(s) && Lands(v, s, o, market)
    ensures var t := CreateOrder(v, s, o, market).state;
            AllHonoured(t) && IdsBehind(t) <==> Compatible(s, o)
  {
    if Compatible(s, o) {
      CreateHonours(v, s, o, market);
    } else {
      var t, id := CreateOrder(v, s, o, market).state, o.id.value;
      LandedTerms(v, s, o, market);
      Lives.CreatedSequence(v, s, o, market);
      if id.Generated? ==> id.sequence <= s.orderSeq + 1 {
        var i :| 0 <= i < |s.fills| && s.fills[i].order == id && !Honours(s.fills[i], o);
        assert t.fills[i] == s.fills[i];
      }
    }
  }

  lemma {:induction false} CancelAllGrows(s: State, ids: seq<OrderId>)
    ensures GrowsFairly(s, CancelAll(s, ids))
  {
    if ids == [] {
      SameOrdersGrow(s, s);
    } else {
      CancelAllGrows(s, ids[..|ids| - 1]);
      var before := CancelAll(s, ids[..|ids| - 1]);
      GrowsThrough(s, before, CancelOrder(before, ids[|ids| - 1]).state);
    }
  }

  lemma EndOfDayGrows(v: Venue, s: State, symbols: seq<string>)
    ensures GrowsFairly(s, EndOfDay(v, s, symbols).state)
  {
    var cancelled := CancelAll(s, OpenIds(s.orders, s.book, None));
    CancelAllGrows(s, OpenIds(s.orders, s.book, None));
    Ledger.FlattenedSame(v, cancelled, symbols);
    SameOrdersGrow(cancelled, EndOfDay(v, s, symbols).state);
    GrowsThrough(s, cancelled, EndOfDay(v, s, symbols).state);
  }

  predicate Admissible(v: Venue, s: State, c: Command) {
    c.Create? && Lands(v, s, c.order, c.market) ==> Compatible(s, c.order)
  }

  lemma StepHonours(v: Venue, s: State, c: Command)
    requires AllHonoured(s) && IdsBehind(s) && Admissible(v, s, c)
    ensures AllHonoured(Step(v, s, c).state) && IdsBehind(Step(v, s, c).state)
  {
    if c.Create? {
      CreateHonours(v, s, c.order, c.market);
    } else {
      StepGrows(v, s, c);
      GrowthKeepsHonour(s, Step(v, s, c).state);
    }
  }

  /** Every command but a submission keeps the terms of every order, and adds only fills on them. */
  lemma StepGrows(v: Venue, s: State, c: Command)
    requires !c.Create?
    ensures GrowsFairly(s, Step(v, s, c).state)
  {
    match c
    case Price(symbol, price) => PriceUpdateGrows(v, s, symbol, price);
    case DayEnd(listing) => EndOfDayGrows(v, s, listing);
    case Cancel(_) | Expire(_) =>
    case TakeSnapshot =>
    case _ => Ledger.SettingSame(v, s, c);
  }

  /** Every order of the run that lands is compatible with the log when it arrives. */
  ghost predicate AdmissibleRun(v: Venue, s: State, commands: seq<Command>) {
    commands != [] ==>
      var n := |commands| - 1;
      AdmissibleRun(v, s, commands[..n]) && Admissible(v, Run(v, s, commands[..n]), commands[n])
  }

  /** Over every such run, every fill trades its order's symbol on its side, and every fill of a
      limit order is at exactly that order's limit. */
  lemma {:induction false} FillsHonourOrders(v: Venue, startingCash: real, commands: seq<Command>)
    requires AdmissibleRun(v, Opened(startingCash), commands)
    ensures var t := Run(v, Opened(startingCash), commands);
            AllHonoured(t) && IdsBehind(t)
  {
    if commands != [] {
      var n := |commands| - 1;
      var before := Run(v, Opened(startingCash), commands[..n]);
      FillsHonourOrders(v, startingCash, commands[..n]);
      StepHonours(v, before, commands[n]);
    }
  }

  // ----- limits and slippage -----

  /** A fill keeps to a limit. */
  predicate KeepsTo(f: Fill, limit: real) { if IsBuy(f.side) then f.price <= limit else f.price >= limit }

  /** A stop-limit order fills at its limit and then slips. So its fill keeps to the limit exactly
      when no slippage applies, or the limit is negative and slips the other way; a prediction
      contract's price is clamped to `[0, 1]`, so it also keeps to limits that lie on the clamp's
      side. A limit of zero counts as none. */
  lemma StopLimitKeepsLimitIff(v: Venue, s: State, id: OrderId, price: real)
    requires id in s.orders && s.orders[id].kind == STOP_LIMIT
    requires s.orders[id].limit.Some? && s.orders[id].limit.value != 0.0
    ensures var o := s.orders[id];
            var limit, bps := o.limit.value, v.slippage.Bps(Remaining(o));
            KeepsTo(NextFill(v, s, id, LimitOr(o, price), false), limit) <==>
              if o.asset != PREDICTION then if limit < 0.0 then 0.0 <= bps else bps <= 0.0
              else if IsBuy(o.side) then 0.0 < limit && (bps <= 0.0 || 1.0 <= limit)
              else limit < 0.0 || (limit <= 1.0 && bps <= 0.0)
  {
    var o := s.orders[id];
    var limit, share := o.limit.value, v.slippage.Bps(Remaining(o)) / 10000.0;
    SignOfProduct(limit, share);
  }

  lemma SignOfProduct(x: real, y: real)
    requires x != 0.0
    ensures 0.0 < x * y <==> (if x < 0.0 then y < 0.0 else 0.0 < y)
    ensures x * y < 0.0 <==> (if x < 0.0 then 0.0 < y else y < 0.0)
  {
  }
}
