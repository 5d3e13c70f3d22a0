/** What the exchange's position management guarantees: a surviving position stands inside
    its bracket, its stop never gives ground, its partial exit fires at most once. */
module PaperProtection {
  import opened Prelude
  import opened Orders
  import opened Portfolio
  import opened Trailing
  import opened PaperExchange

  /** Strictly short of the target. */
  predicate ShortOf(long: bool, target: Option<real>, price: real) {
    target.Some? ==> if long then price < target.value else target.value < price
  }

  // ----- one price update -----

  /** What closing out, in part or whole, does to the position. */
  lemma ClosedOutPosition(v: Venue, s: State, symbol: string, quantity: Option<real>, price: real)
    requires symbol in s.account.positions
    ensures var r := ClosedOut(v, s, symbol, quantity, price);
            var h := s.account.positions[symbol];
            && r.state.rules == s.rules
            && (r.raised ==> r.state == s)
            && (!r.raised && quantity.None? ==> symbol !in r.state.account.positions)
            && (!r.raised && quantity.Some? && symbol in r.state.account.positions ==>
                  r.state.account.positions[symbol] == Reduced(h, quantity.value, price))
  {
  }

  lemma ExitedPosition(v: Venue, s: State, symbol: string, price: real)
    ensures var r := ExitPosition(v, s, symbol, price);
            && r.state.rules == s.rules
            && (!r.raised ==> symbol !in r.state.account.positions)
  {
    if symbol in s.account.positions {
      ClosedOutPosition(v, s, symbol, None, price);
    }
  }

  /** A position that outlives the exit checks is the one they found, with its stop trailed, and
      it stands inside its bracket: short of the target always, and clear of the stop exactly
      when the trailing rule keeps a positive distance. */
  lemma ProtectedPosition(v: Venue, s: State, symbol: string, price: real)
    requires symbol in s.account.positions
    ensures var r := Protected(v, s, symbol, price);
            && r.state.rules == s.rules
            && (!r.raised && symbol in r.state.account.positions ==>
                  var h, k := s.account.positions[symbol], r.state.account.positions[symbol];
                  && k == h.(stop := Trailed(s.rules.trailing, symbol, IsLong(h.side), price, h.stop))
                  && ShortOf(IsLong(k.side), k.target, price)
                  && (Behind(IsLong(k.side), k.stop, price) <==> TrailsBehind(s.rules.trailing, symbol, price)))
  {
    var h := s.account.positions[symbol];
    ExitedPosition(v, s, symbol, price);
    TrailedStop(s.rules.trailing, symbol, IsLong(h.side), price, h.stop);
    var stop := Trailed(s.rules.trailing, symbol, IsLong(h.side), price, h.stop);
    var t := s.(account := Bracketed(s.account, symbol, stop, h.target));
    ExitedPosition(v, t, symbol, price);
  }

  /** The partial exit shrinks the position by its share once, and notes that it did. */
  lemma PartialExitedPosition(v: Venue, s: State, symbol: string, risk: Option<real>, price: real)
    requires symbol in s.account.positions
    ensures var r := PartialExited(v, s, symbol, risk, price);
            var h := s.account.positions[symbol];
            && r.state.rules.trailing == s.rules.trailing && r.state.rules.breakEven == s.rules.breakEven
            && (!r.raised && symbol in r.state.account.positions ==>
                  var k := r.state.account.positions[symbol];
                  && k.side == h.side && k.average == h.average && k.stop == h.stop && k.target == h.target
                  && PartialAtMostOnce(s.rules, h, r.state.rules, k, symbol))
  {
    var h := s.account.positions[symbol];
    if PartialFires(s, symbol, h, risk, price) {
      ClosedOutPosition(v, s, symbol, Some(PartialQuantity(h, s.rules.partials[symbol])), price);
    }
  }

  function RuleFor(b: RuleBook, symbol: string): Option<PartialExit> {
    if symbol in b.partials then Some(b.partials[symbol]) else None
  }

  /** Between two states of one position: either the partial rule did not fire, and the quantity
      stands, or it went from armed to done, and the quantity fell by exactly its share. */
  predicate PartialAtMostOnce(before: RuleBook, h: Holding, after: RuleBook, k: Holding, symbol: string) {
    var p, q := RuleFor(before, symbol), RuleFor(after, symbol);
    if q == p then k.quantity == h.quantity
    else
      && p.Some? && !p.value.done && q == Some(p.value.(done := true))
      && k.quantity == h.quantity - PartialQuantity(h, p.value)
  }

  /** One pass of position management over a position that survives it. */
  ghost predicate Managed(s: State, t: State, symbol: string, price: real)
    requires symbol in s.account.positions && symbol in t.account.positions
  {
    var h, k := s.account.positions[symbol], t.account.positions[symbol];
    var long := IsLong(k.side);
    && k.side == h.side && k.average == h.average && k.target == h.target
    && t.rules.trailing == s.rules.trailing
    && ShortOf(long, k.target, price)
    && (Behind(long, k.stop, price) <==> TrailsBehind(s.rules.trailing, symbol, price))
    && (!Widens(s.rules, symbol) ==> NoWider(long, h.stop, k.stop))
    && PartialAtMostOnce(s.rules, h, t.rules, k, symbol)
  }

  lemma BreakEvenNeverWidens(h: Holding, armed: bool, price: real)
    ensures NoWider(IsLong(h.side), h.stop, BreakEvenStop(h, armed, price))
    ensures h.stop.None? ==> BreakEvenStop(h, armed, price).None?
  {
  }

  /** The position as the break-even move leaves it: the same but for its mark and a stop no wider. */
  lemma MovedPosition(s: State, symbol: string, price: real)
    requires symbol in s.account.positions
    ensures var t := MovedToBreakEven(s.(account := MarkOne(s.account, symbol, price)), symbol, price);
            && symbol in t.account.positions && t.rules == s.rules
            && SameBut(s.account.positions[symbol], t.account.positions[symbol])
            && t.account.positions[symbol].quantity == s.account.positions[symbol].quantity
  {
    BreakEvenNeverWidens(Marked(s.account.positions[symbol], price), IsArmed(s, symbol), price);
  }

  /** Direction, entry and target as they were, the stop no wider. */
  predicate SameBut(h: Holding, k: Holding) {
    k.side == h.side && k.average == h.average && k.target == h.target && NoWider(IsLong(k.side), h.stop, k.stop)
  }

  /** What the exit checks and the trailing stop make of a position that outlives them. */
  lemma ProtectedSurvivor(v: Venue, s: State, symbol: string, price: real)
    requires symbol in s.account.positions
    ensures var r := Protected(v, s, symbol, price);
            && r.state.rules == s.rules
            && (!r.raised && symbol in r.state.account.positions ==>
                  var h, k := s.account.positions[symbol], r.state.account.positions[symbol];
                  && k.side == h.side && k.average == h.average && k.target == h.target && k.quantity == h.quantity
                  && ShortOf(IsLong(k.side), k.target, price)
                  && (Behind(IsLong(k.side), k.stop, price) <==> TrailsBehind(s.rules.trailing, symbol, price))
                  && (!Widens(s.rules, symbol) ==> NoWider(IsLong(k.side), h.stop, k.stop)))
  {
    var h := s.account.positions[symbol];
    ProtectedPosition(v, s, symbol, price);
    if !StopHit(h, price) {
      TrailedStop(s.rules.trailing, symbol, IsLong(h.side), price, h.stop);
    }
  }

  predicate Widens(b: RuleBook, symbol: string) { symbol in b.trailing && b.trailing[symbol].allowWiden }

  /** A position that survives position management stands inside its bracket, with its stop no
      wider than before and its partial exit taken at most once. */
  lemma SurvivorIsManaged(v: Venue, s: State, symbol: string, price: real)
    requires symbol in s.account.positions
    ensures var r := ManagePosition(v, s, symbol, price);
            !r.raised && symbol in r.state.account.positions ==> Managed(s, r.state, symbol, price)
  {
    var risk := RiskOf(s.account.positions[symbol]);
    var moved := MovedToBreakEven(s.(account := MarkOne(s.account, symbol, price)), symbol, price);
    MovedPosition(s, symbol, price);
    SurvivorOfMoved(v, s, moved, symbol, risk, price);
  }

  lemma SurvivorOfMoved(v: Venue, s: State, moved: State, symbol: string, risk: Option<real>, price: real)
    requires symbol in s.account.positions && symbol in moved.account.positions && moved.rules == s.rules
    requires SameBut(s.account.positions[symbol], moved.account.positions[symbol])
    requires moved.account.positions[symbol].quantity == s.account.positions[symbol].quantity
    ensures var exited := PartialExited(v, moved, symbol, risk, price);
            var r := if exited.raised then exited else Protected(v, exited.state, symbol, price);
            !r.raised && symbol in r.state.account.positions ==> Managed(s, r.state, symbol, price)
  {
    var exited := PartialExited(v, moved, symbol, risk, price);
    PartialExitedPosition(v, moved, symbol, risk, price);
    if !exited.raised && symbol in exited.state.account.positions {
      ProtectedSurvivor(v, exited.state, symbol, price);
    }
  }

  // ----- a whole price update -----

  lemma TriggeredKeepsRules(v: Venue, s: State, id: OrderId, price: real)
    requires id in s.orders
    ensures FillTriggered(v, s, id, price).state.rules == s.rules
  {
  }

  /** Matching changes no rule. */
  lemma {:induction false} MatchKeepsRules(v: Venue, s: State, ids: seq<OrderId>, price: real)
    requires forall id :: id in ids ==> id in s.orders
    ensures MatchOrders(v, s, ids, price).state.rules == s.rules
  {
    if ids != [] {
      MatchKeepsRules(v, s, ids[..|ids| - 1], price);
      var before := MatchOrders(v, s, ids[..|ids| - 1], price).state;
      TriggeredKeepsRules(v, before, ids[|ids| - 1], price);
    }
  }

  /** Strictly short of the target, and clear of the stop exactly when trailing keeps a positive
      distance. */
  predicate InBracket(k: Holding, rules: map<string, TrailingRule>, symbol: string, price: real) {
    ShortOf(IsLong(k.side), k.target, price)
    && (Behind(IsLong(k.side), k.stop, price) <==> TrailsBehind(rules, symbol, price))
  }

  /** After any price update that completes, whatever orders it filled, a position held in its
      symbol, old, new or turned around, stands inside its bracket. */
  lemma UpdateLeavesInBracket(v: Venue, s: State, symbol: string, price: real)
    ensures var r := PriceUpdate(v, s, symbol, price);
            !r.raised && symbol in r.state.account.positions ==>
              InBracket(r.state.account.positions[symbol], s.rules.trailing, symbol, price)
  {
    var priced, ids := Priced(s, symbol, price), OpenIds(s.orders, s.book, Some(symbol));
    var matched := MatchOrders(v, priced, ids, price);
    MatchKeepsRules(v, priced, ids, price);
    if !matched.raised && symbol in matched.state.account.positions {
      SurvivorIsManaged(v, matched.state, symbol, price);
    }
  }

  // ----- over a price tape -----

  datatype Tick = Tick(symbol: string, price: real)

  ghost function Tape(v: Venue, s: State, ticks: seq<Tick>): Outcome {
    if ticks == [] then Outcome(s, false)
    else
      var before := Tape(v, s, ticks[..|ticks| - 1]);
      if before.raised then before
      else PriceUpdate(v, before.state, ticks[|ticks| - 1].symbol, ticks[|ticks| - 1].price)
  }

  /** No resting order that a price of the symbol reaches meets it. */
  ghost predicate Quiet(s: State, symbol: string, price: real) {
    forall id :: id in s.orders && IsOpen(s.orders[id].status) && Asks(Some(symbol), s.orders[id])
      ==> !Triggered(s.orders[id], price)
  }

  /** A tick triggers no resting order of the symbol that it reaches. */
  ghost predicate Spares(s: State, tick: Tick, symbol: string) {
    forall id :: id in s.orders && IsOpen(s.orders[id].status) ==>
      s.orders[id].symbol == symbol && Asks(Some(tick.symbol), s.orders[id]) ==> !Triggered(s.orders[id], tick.price)
  }

  /** No tick on the tape triggers a resting order of the symbol. */
  ghost predicate QuietTape(v: Venue, s: State, ticks: seq<Tick>, symbol: string) {
    ticks != [] ==>
      var n := |ticks| - 1;
      QuietTape(v, s, ticks[..n], symbol) && Spares(Tape(v, s, ticks[..n]).state, ticks[n], symbol)
  }

  lemma {:induction false} QuietMatch(v: Venue, s: State, ids: seq<OrderId>, price: real)
    requires forall id :: id in ids ==> id in s.orders && !Triggered(s.orders[id], price)
    ensures MatchOrders(v, s, ids, price) == Outcome(s, false)
  {
    if ids != [] {
      QuietMatch(v, s, ids[..|ids| - 1], price);
    }
  }

  lemma QuietUpdate(v: Venue, s: State, symbol: string, price: real)
    requires Quiet(s, symbol, price)
    ensures PriceUpdate(v, s, symbol, price) == ManagePosition(v, Priced(s, symbol, price), symbol, price)
  {
    QuietMatch(v, Priced(s, symbol, price), OpenIds(s.orders, s.book, Some(symbol)), price);
  }

  /** Position management of one symbol leaves every other position and its rules alone. */
  predicate OthersUntouched(s: State, t: State, symbol: string) {
    && t.account.positions - {symbol} == s.account.positions - {symbol}
    && t.rules.partials - {symbol} == s.rules.partials - {symbol}
    && t.rules.trailing == s.rules.trailing
  }

  lemma ExitTouchesOne(v: Venue, s: State, symbol: string, price: real)
    ensures OthersUntouched(s, ExitPosition(v, s, symbol, price).state, symbol)
  {
  }

  lemma PartialTouchesOne(v: Venue, s: State, symbol: string, risk: Option<real>, price: real)
    requires symbol in s.account.positions
    ensures OthersUntouched(s, PartialExited(v, s, symbol, risk, price).state, symbol)
  {
  }

  lemma ProtectedTouchesOne(v: Venue, s: State, symbol: string, price: real)
    ensures OthersUntouched(s, Protected(v, s, symbol, price).state, symbol)
  {
    if symbol in s.account.positions {
      var h := s.account.positions[symbol];
      var stop := Trailed(s.rules.trailing, symbol, IsLong(h.side), price, h.stop);
      ExitTouchesOne(v, s, symbol, price);
      ExitTouchesOne(v, s.(account := Bracketed(s.account, symbol, stop, h.target)), symbol, price);
    }
  }

  lemma ManageTouchesOne(v: Venue, s: State, symbol: string, price: real)
    ensures OthersUntouched(s, ManagePosition(v, s, symbol, price).state, symbol)
  {
    if symbol in s.account.positions {
      var moved := MovedToBreakEven(s.(account := MarkOne(s.account, symbol, price)), symbol, price);
      var risk := RiskOf(s.account.positions[symbol]);
      assert OthersUntouched(s, moved, symbol);
      PartialTouchesOne(v, moved, symbol, risk, price);
      ProtectedTouchesOne(v, PartialExited(v, moved, symbol, risk, price).state, symbol, price);
    }
  }

  /** How a position may differ from what it was: same direction, entry and target, a stop that
      is no wider, at most one partial exit. */
  ghost predicate Held(s: State, t: State, symbol: string)
    requires symbol in s.account.positions && symbol in t.account.positions
  {
    var h, k := s.account.positions[symbol], t.account.positions[symbol];
    && k.side == h.side && k.average == h.average && k.target == h.target
    && NoWider(IsLong(k.side), h.stop, k.stop)
    && PartialAtMostOnce(s.rules, h, t.rules, k, symbol)
  }

  lemma HeldThrough(s: State, t: State, u: State, symbol: string)
    requires symbol in s.account.positions && symbol in t.account.positions && symbol in u.account.positions
    requires Held(s, t, symbol) && Held(t, u, symbol)
    ensures Held(s, u, symbol)
  {
  }

  // ----- fills of other symbols -----

  /** The position of a symbol and the rules it is managed by are the same. */
  predicate Untouched(s: State, t: State, symbol: string) {
    && (symbol in s.account.positions <==> symbol in t.account.positions)
    && (symbol in s.account.positions ==> t.account.positions[symbol] == s.account.positions[symbol])
    && (symbol in s.rules.partials <==> symbol in t.rules.partials)
    && (symbol in s.rules.partials ==> t.rules.partials[symbol] == s.rules.partials[symbol])
    && t.rules.trailing == s.rules.trailing
  }

  lemma UntouchedThrough(s: State, t: State, u: State, symbol: string)
    requires Untouched(s, t, symbol) && Untouched(t, u, symbol)
    ensures Untouched(s, u, symbol)
  {
  }

  lemma OthersAreUntouched(s: State, t: State, other: string, symbol: string)
    requires OthersUntouched(s, t, other) && symbol != other
    ensures Untouched(s, t, symbol)
  {
    assert symbol in t.account.positions <==> symbol in t.account.positions - {other};
    assert symbol in s.account.positions <==> symbol in s.account.positions - {other};
    assert symbol in t.account.positions ==> t.account.positions[symbol] == (t.account.positions - {other})[symbol];
    assert symbol in t.rules.partials <==> symbol in t.rules.partials - {other};
    assert symbol in s.rules.partials <==> symbol in s.rules.partials - {other};
    assert symbol in t.rules.partials ==> t.rules.partials[symbol] == (t.rules.partials - {other})[symbol];
  }

  /** A trade touches the position of its order's symbol only, and changes no order's trigger. */
  lemma SettledTouchesOne(s: State, id: OrderId, f: Fill, price: real)
    requires id in s.orders
    ensures var o, t := s.orders[id], Settled(s, id, f).state;
            OthersUntouched(s, t, o.symbol) && SameTrigger(o, t.orders[id], price)
  {
    TradedTouchesOne(s.account, s.orders[id], f.quantity, f.price, f.fee);
  }

  predicate SameTrigger(o: Order, p: Order, price: real) {
    o.symbol == p.symbol && (Triggered(o, price) <==> Triggered(p, price))
  }

  lemma TradedTouchesOne(a: Account, o: Order, quantity: real, price: real, fee: real)
    ensures Traded(a, o, quantity, price, fee).0.positions - {o.symbol} == a.positions - {o.symbol}
  {
  }

  lemma FillLeavesAlone(v: Venue, s: State, id: OrderId, price: real, symbol: string)
    requires id in s.orders && (s.orders[id].symbol == symbol ==> !Triggered(s.orders[id], price))
    ensures var t := FillTriggered(v, s, id, price).state;
            Untouched(s, t, symbol) && SameTrigger(s.orders[id], t.orders[id], price)
  {
    var o := s.orders[id];
    if Triggered(o, price) {
      var at := if o.kind == LIMIT || o.kind == STOP_LIMIT then LimitOr(o, price) else price;
      SettledTouchesOne(s, id, NextFill(v, s, id, at, o.kind == LIMIT), price);
      OthersAreUntouched(s, FillTriggered(v, s, id, price).state, o.symbol, symbol);
    }
  }

  /** Matching fills nothing but triggered orders, so it leaves a symbol without any alone. */
  lemma {:induction false} MatchLeavesAlone(v: Venue, s: State, ids: seq<OrderId>, price: real, symbol: string)
    requires forall id :: id in ids ==> id in s.orders
    requires forall id :: id in ids && s.orders[id].symbol == symbol ==> !Triggered(s.orders[id], price)
    ensures var t := MatchOrders(v, s, ids, price).state;
            Untouched(s, t, symbol) && forall id :: id in s.orders ==> SameTrigger(s.orders[id], t.orders[id], price)
  {
    if ids != [] {
      var init, last := ids[..|ids| - 1], ids[|ids| - 1];
      var before := MatchOrders(v, s, init, price);
      MatchLeavesAlone(v, s, init, price, symbol);
      if !before.raised {
        assert SameTrigger(s.orders[last], before.state.orders[last], price);
        FillLeavesAlone(v, before.state, last, price, symbol);
        UntouchedThrough(s, before.state, FillTriggered(v, before.state, last, price).state, symbol);
      }
    }
  }

  lemma UntouchedHolds(s: State, t: State, symbol: string)
    requires Untouched(s, t, symbol) && symbol in t.account.positions
    ensures Held(s, t, symbol)
  {
  }

  // ----- tapes -----

  /** One tick that spares the symbol's resting orders: a position still there was there before,
      and is held. */
  lemma TickHolds(v: Venue, s: State, tick: Tick, symbol: string)
    requires Spares(s, tick, symbol) && !Widens(s.rules, symbol)
    ensures var r := PriceUpdate(v, s, tick.symbol, tick.price);
            && r.state.rules.trailing == s.rules.trailing
            && (!r.raised && symbol in r.state.account.positions ==>
                  symbol in s.account.positions && Held(s, r.state, symbol))
  {
    var priced, ids := Priced(s, tick.symbol, tick.price), OpenIds(s.orders, s.book, Some(tick.symbol));
    var matched := MatchOrders(v, priced, ids, tick.price);
    MatchLeavesAlone(v, priced, ids, tick.price, symbol);
    if !matched.raised {
      ManageHolds(v, matched.state, tick, symbol);
      var t := ManagePosition(v, matched.state, tick.symbol, tick.price).state;
      if symbol in matched.state.account.positions && symbol in t.account.positions {
        UntouchedHolds(priced, matched.state, symbol);
      }
    }
  }

  lemma ManageHolds(v: Venue, s: State, tick: Tick, symbol: string)
    requires !Widens(s.rules, symbol)
    ensures var r := ManagePosition(v, s, tick.symbol, tick.price);
            && r.state.rules.trailing == s.rules.trailing
            && (!r.raised && symbol in r.state.account.positions ==>
                  symbol in s.account.positions && Held(s, r.state, symbol))
  {
    ManageTouchesOne(v, s, tick.symbol, tick.price);
    var t := ManagePosition(v, s, tick.symbol, tick.price).state;
    if symbol == tick.symbol {
      if symbol in s.account.positions {
        SurvivorIsManaged(v, s, symbol, tick.price);
      }
    } else {
      OthersAreUntouched(s, t, tick.symbol, symbol);
      if symbol in t.account.positions {
        UntouchedHolds(s, t, symbol);
      }
    }
  }

  /** Over any tape of prices, of any symbols, that triggers no resting order of the symbol itself,
      with widening off: a position that survives the whole tape keeps direction, entry and
      target, its stop has only ever tightened, and its partial exit has fired at most once. */
  lemma {:induction false} StopRatchets(v: Venue, s: State, ticks: seq<Tick>, symbol: string)
    requires QuietTape(v, s, ticks, symbol) && !Widens(s.rules, symbol)
    ensures var r := Tape(v, s, ticks);
            && (!r.raised ==> r.state.rules.trailing == s.rules.trailing)
            && (!r.raised && symbol in r.state.account.positions ==>
                  symbol in s.account.positions && Held(s, r.state, symbol))
  {
    if ticks != [] {
      var n := |ticks| - 1;
      var before := Tape(v, s, ticks[..n]);
      StopRatchets(v, s, ticks[..n], symbol);
      if !before.raised {
        TickHolds(v, before.state, ticks[n], symbol);
        var after := Tape(v, s, ticks);
        if !after.raised && symbol in after.state.account.positions {
          HeldThrough(s, before.state, after.state, symbol);
        }
      }
    }
  }
}
