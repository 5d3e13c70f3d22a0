/** What position management does at a price, in prices: when the stop moves and to where, when a part
    is sold and how much, when the position is closed and for what. */
module PaperManagement {
  import opened Prelude
  import opened Costs
  import opened Portfolio
  import opened PaperExchange
  import opened Trailing
  import Protection = PaperProtection

  /** A position as the exchange opens them. */
  predicate Plain(h: Holding) { (h.side == LONG || h.side == SHORT) && 0.0 < h.quantity }

  /** The price has gone as far in favour of the position as its stop is away from the entry. */
  predicate AtOneR(h: Holding, price: real) {
    h.stop.Some? && h.stop.value != h.average
    && var risk := if h.stop.value < h.average then h.average - h.stop.value else h.stop.value - h.average;
       if h.side == LONG then price - h.average >= risk else h.average - price >= risk
  }

  predicate BreaksEven(b: RuleBook, symbol: string) { symbol in b.breakEven && b.breakEven[symbol] }

  /** The stop stands on the side of the entry where it loses. */
  predicate Loses(h: Holding) {
    h.stop.Some? && if h.side == LONG then h.stop.value < h.average else h.average < h.stop.value
  }

  /** Where the break-even rule leaves the stop: at the entry, from one unit of risk on. */
  function EvenStop(b: RuleBook, symbol: string, h: Holding, price: real): Option<real> {
    if BreaksEven(b, symbol) && AtOneR(h, price) && Loses(h) then Some(h.average) else h.stop
  }

  /** The rule for a partial exit is waiting, and the price has gone far enough. */
  predicate PartialDue(b: RuleBook, symbol: string, h: Holding, price: real) {
    symbol in b.partials && !b.partials[symbol].done && 0.0 < b.partials[symbol].percent && AtOneR(h, price)
  }

  /** What the partial exit would leave. */
  function Rest(b: RuleBook, symbol: string, h: Holding): real
    requires symbol in b.partials
  {
    h.quantity - h.quantity * (b.partials[symbol].percent / 100.0)
  }

  /** The partial exit is due and leaves something to manage. */
  predicate PartialTaken(b: RuleBook, symbol: string, h: Holding, price: real) {
    PartialDue(b, symbol, h, price) && DUST <= Rest(b, symbol, h)
  }

  /** The price is at or past the stop, or the target, or back at the mean. */
  predicate Leaves(b: RuleBook, symbol: string, h: Holding, price: real) {
    if h.side == LONG then
      || (h.stop.Some? && price <= h.stop.value)
      || (h.target.Some? && h.target.value <= price)
      || (symbol in b.meanReversion && price <= b.meanReversion[symbol])
    else
      || (h.stop.Some? && h.stop.value <= price)
      || (h.target.Some? && price <= h.target.value)
      || (symbol in b.meanReversion && b.meanReversion[symbol] <= price)
  }

  // ----- one stage at a time -----

  lemma MovedIs(s: State, symbol: string, price: real)
    requires symbol in s.account.positions && Plain(s.account.positions[symbol])
    ensures var h := s.account.positions[symbol];
            var t := MovedToBreakEven(s.(account := MarkOne(s.account, symbol, price)), symbol, price);
            var k := Marked(h, price).(stop := EvenStop(s.rules, symbol, h, price));
            t == s.(account := s.account.(positions := s.account.positions[symbol := k]))
  {
    var h := s.account.positions[symbol];
    var t := MovedToBreakEven(s.(account := MarkOne(s.account, symbol, price)), symbol, price);
    assert t.account.positions == s.account.positions[symbol := t.account.positions[symbol]];
  }

  /** A move to break-even triggers no stop: the price is a unit of risk away on the winning side. */
  lemma EvenStopLeaves(b: RuleBook, symbol: string, h: Holding, price: real)
    requires Plain(h)
    ensures Leaves(b, symbol, Marked(h, price).(stop := EvenStop(b, symbol, h, price)), price)
       <==> Leaves(b, symbol, h, price)
  {
  }

  lemma PartialIs(v: Venue, s: State, symbol: string, h: Holding, price: real)
    requires symbol in s.account.positions && Plain(h) && Plain(s.account.positions[symbol])
    requires var k := s.account.positions[symbol];
             k.side == h.side && k.average == h.average && k.quantity == h.quantity
    requires PartialDue(s.rules, symbol, h, price) ==> PartialTaken(s.rules, symbol, h, price)
    ensures var r, k := PartialExited(v, s, symbol, RiskOf(h), price), s.account.positions[symbol];
            && !r.raised && symbol in r.state.account.positions
            && (if PartialTaken(s.rules, symbol, h, price) then
                  && r.state.rules == WithPartialDone(s, symbol).rules
                  && r.state.account.positions[symbol] == Marked(k.(quantity := Rest(s.rules, symbol, h)), price)
                else r.state == s)
  {
    assert PartialFires(s, symbol, s.account.positions[symbol], RiskOf(h), price)
      <==> PartialDue(s.rules, symbol, h, price);
    if PartialDue(s.rules, symbol, h, price) {
      PositiveShare(h.quantity, s.rules.partials[symbol].percent / 100.0);
      PartlyClosed(v, s, symbol, PartialQuantity(h, s.rules.partials[symbol]), price);
    }
  }

  lemma PositiveShare(q: real, share: real)
    requires 0.0 < q && 0.0 < share
    ensures 0.0 < q * share
  {
  }

  lemma PartlyClosed(v: Venue, s: State, symbol: string, quantity: real, price: real)
    requires symbol in s.account.positions && 0.0 < quantity
    requires DUST <= s.account.positions[symbol].quantity - quantity
    ensures var r, k := ClosedOut(v, s, symbol, Some(quantity), price), s.account.positions[symbol];
            && !r.raised && symbol in r.state.account.positions && r.state.rules == s.rules
            && r.state.account.positions[symbol] == Marked(k.(quantity := k.quantity - quantity), price)
  {
  }

  /** Closing out a whole position never fails. */
  lemma WhollyClosed(v: Venue, s: State, symbol: string, price: real)
    requires symbol in s.account.positions && 0.0 < s.account.positions[symbol].quantity
    ensures var r := ExitPosition(v, s, symbol, price);
            !r.raised && symbol !in r.state.account.positions
  {
  }

  lemma ProtectedIs(v: Venue, s: State, symbol: string, price: real)
    requires symbol in s.account.positions && Plain(s.account.positions[symbol])
    ensures var r, h := Protected(v, s, symbol, price), s.account.positions[symbol];
            && !r.raised && r.state.rules == s.rules
            && (symbol in r.state.account.positions <==> !Leaves(s.rules, symbol, h, price))
            && (symbol in r.state.account.positions ==>
                  r.state.account.positions[symbol]
                  == h.(stop := Trailed(s.rules.trailing, symbol, h.side == LONG, price, h.stop)))
  {
    var h := s.account.positions[symbol];
    var stop := Trailed(s.rules.trailing, symbol, h.side == LONG, price, h.stop);
    var t := s.(account := Bracketed(s.account, symbol, stop, h.target));
    Protection.ProtectedPosition(v, s, symbol, price);
    WhollyClosed(v, s, symbol, price);
    WhollyClosed(v, t, symbol, price);
  }

  // ----- the whole of it -----

  /** The position management leaves when it closes nothing: marked, cut to the rest where a partial
      exit was taken, its stop moved to break-even and then trailed. */
  function Kept(b: RuleBook, symbol: string, h: Holding, price: real): Holding {
    var even := Marked(h, price).(stop := EvenStop(b, symbol, h, price));
    var rest :=
      if PartialTaken(b, symbol, h, price) then Marked(even.(quantity := Rest(b, symbol, h)), price) else even;
    rest.(stop := Trailed(b.trailing, symbol, h.side == LONG, price, rest.stop))
  }

  /** Management of a position closes it exactly at its stop, at its target or back at the mean, as
      they were before the price; otherwise it stays, under these rules. Nothing is raised, unless a
      partial exit would leave nothing. */
  lemma ManagedIs(v: Venue, s: State, symbol: string, price: real)
    requires symbol in s.account.positions && Plain(s.account.positions[symbol])
    requires var h := s.account.positions[symbol];
             PartialDue(s.rules, symbol, h, price) ==> PartialTaken(s.rules, symbol, h, price)
    ensures var r, h := ManagePosition(v, s, symbol, price), s.account.positions[symbol];
            && !r.raised
            && (symbol in r.state.account.positions <==> !Leaves(s.rules, symbol, h, price))
            && (symbol in r.state.account.positions ==>
                  r.state.account.positions[symbol] == Kept(s.rules, symbol, h, price))
            && (PartialTaken(s.rules, symbol, h, price) ==>
                  symbol in r.state.rules.partials && r.state.rules.partials[symbol].done)
  {
    var h := s.account.positions[symbol];
    var moved := MovedToBreakEven(s.(account := MarkOne(s.account, symbol, price)), symbol, price);
    MovedIs(s, symbol, price);
    EvenStopLeaves(s.rules, symbol, h, price);
    PartialIs(v, moved, symbol, h, price);
    var exited := PartialExited(v, moved, symbol, RiskOf(h), price).state;
    ProtectedIs(v, exited, symbol, price);
  }

  /** A partial exit that would leave less than the residue the portfolio drops closes the position;
      one that asks for more than is held raises and changes neither money nor rules. */
  lemma PartialOverdone(v: Venue, s: State, symbol: string, price: real)
    requires symbol in s.account.positions && Plain(s.account.positions[symbol])
    requires PartialDue(s.rules, symbol, s.account.positions[symbol], price)
    ensures var r, rest := ManagePosition(v, s, symbol, price), Rest(s.rules, symbol, s.account.positions[symbol]);
            && (-DUST < rest < DUST ==> !r.raised && symbol !in r.state.account.positions)
            && (rest < -DUST ==> r.raised && r.state.rules == s.rules && r.state.account.cash == s.account.cash)
  {
    var h := s.account.positions[symbol];
    var moved := MovedToBreakEven(s.(account := MarkOne(s.account, symbol, price)), symbol, price);
    MovedIs(s, symbol, price);
    PositiveShare(h.quantity, s.rules.partials[symbol].percent / 100.0);
    OverdoneExit(v, moved, symbol, h, price);
  }

  lemma OverdoneExit(v: Venue, s: State, symbol: string, h: Holding, price: real)
    requires symbol in s.account.positions && PartialDue(s.rules, symbol, h, price) && Plain(h)
    requires s.account.positions[symbol].quantity == h.quantity && s.account.positions[symbol].side == h.side
    requires s.account.positions[symbol].average == h.average
    requires 0.0 < h.quantity * (s.rules.partials[symbol].percent / 100.0)
    ensures var r, rest := PartialExited(v, s, symbol, RiskOf(h), price), Rest(s.rules, symbol, h);
            && (-DUST < rest < DUST ==> !r.raised && symbol !in r.state.account.positions)
            && (rest < -DUST ==> r == Outcome(s, true))
  {
    assert PartialFires(s, symbol, s.account.positions[symbol], RiskOf(h), price);
  }

  // ----- stops -----

  /** With no trailing rule a position that stays has its stop exactly at the entry, where break-even
      is configured, the price a unit of risk in favour and the stop on the losing side, and exactly
      where it was otherwise. */
  lemma StopMovesToEntryIff(v: Venue, s: State, symbol: string, price: real)
    requires symbol in s.account.positions && Plain(s.account.positions[symbol]) && symbol !in s.rules.trailing
    requires var h := s.account.positions[symbol];
             PartialDue(s.rules, symbol, h, price) ==> PartialTaken(s.rules, symbol, h, price)
    ensures var t, h := ManagePosition(v, s, symbol, price).state, s.account.positions[symbol];
            symbol in t.account.positions ==>
              t.account.positions[symbol].stop
              == if BreaksEven(s.rules, symbol) && AtOneR(h, price) && Loses(h) then Some(h.average) else h.stop
  {
    ManagedIs(v, s, symbol, price);
  }

  /** Whatever trails, as long as widening is off: at a unit of risk in favour the break-even rule
      has the stop of a position that stays no worse than its entry. */
  lemma StopReachesEntry(v: Venue, s: State, symbol: string, price: real)
    requires symbol in s.account.positions && Plain(s.account.positions[symbol])
    requires !(symbol in s.rules.trailing && s.rules.trailing[symbol].allowWiden)
    requires BreaksEven(s.rules, symbol) && AtOneR(s.account.positions[symbol], price)
    requires var h := s.account.positions[symbol];
             PartialDue(s.rules, symbol, h, price) ==> PartialTaken(s.rules, symbol, h, price)
    ensures var t, h := ManagePosition(v, s, symbol, price).state, s.account.positions[symbol];
            symbol in t.account.positions ==>
              var stop := t.account.positions[symbol].stop;
              stop.Some? && if h.side == LONG then h.average <= stop.value else stop.value <= h.average
  {
    var h := s.account.positions[symbol];
    ManagedIs(v, s, symbol, price);
    TrailedStop(s.rules.trailing, symbol, h.side == LONG, price, EvenStop(s.rules, symbol, h, price));
  }

  /** Where a trailing rule puts a stop: its distance behind the price, unless widening is off and
      the stop is closer already. A range or distance that is not positive trails nothing. */
  lemma TrailsTo(rules: map<string, TrailingRule>, symbol: string, long: bool, price: real, current: Option<real>)
    requires symbol in rules
    ensures var r, stop := rules[symbol], Trailed(rules, symbol, long, price, current);
            var off := (r.mode == ATR && r.atr <= 0.0) || (r.mode == FIXED_DISTANCE && r.distance <= 0.0);
            var distance := match r.mode
                            case ATR => r.atr * r.multiplier
                            case PERCENTAGE => price * r.percentage
                            case FIXED_DISTANCE => r.distance;
            var behind := if long then price - distance else price + distance;
            && (off ==> stop == current)
            && (!off ==> stop.Some?)
            && (!off && (current.None? || r.allowWiden) ==> stop.value == behind)
            && (!off && current.Some? && !r.allowWiden ==>
                  && (stop.value == behind || stop.value == current.value)
                  && (if long then behind <= stop.value && current.value <= stop.value
                      else stop.value <= behind && stop.value <= current.value))
  {
  }

  // ----- what a close pays -----

  /** The position is gone, sold or bought back whole at the price, for the taker's fee of its
      symbol; the fee is booked with the exits and the fill log has not moved. */
  predicate PaidOut(v: Venue, s: State, t: State, symbol: string, price: real)
    requires symbol in s.account.positions
  {
    var h := s.account.positions[symbol];
    var value := h.quantity * price;
    var fee := Abs(value) * v.fees.Rate(AssetOf(v, symbol), Taker, None);
    && t.account.positions == s.account.positions - {symbol}
    && t.account.cash == s.account.cash + (if h.side == LONG then value else -value) - fee
    && t.account.realized == s.account.realized - fee
         + (if h.side == LONG then (price - h.average) * h.quantity else (h.average - price) * h.quantity)
    && t.fills == s.fills && t.exitFees == s.exitFees + fee
  }

  lemma ExitPays(v: Venue, s: State, symbol: string, price: real)
    requires symbol in s.account.positions && Plain(s.account.positions[symbol])
    ensures PaidOut(v, s, ExitPosition(v, s, symbol, price).state, symbol, price)
  {
  }

  /** The states differ in the position's mark and protective prices only. */
  predicate SameButBracket(s: State, t: State, symbol: string) {
    && symbol in s.account.positions && symbol in t.account.positions
    && t.account.positions - {symbol} == s.account.positions - {symbol}
    && t.account.cash == s.account.cash && t.account.realized == s.account.realized
    && t.fills == s.fills && t.exitFees == s.exitFees
    && var h, k := s.account.positions[symbol], t.account.positions[symbol];
       k.side == h.side && k.quantity == h.quantity && k.average == h.average
  }

  lemma PaidAlike(v: Venue, s: State, t: State, u: State, symbol: string, price: real)
    requires SameButBracket(s, t, symbol) && PaidOut(v, t, u, symbol, price)
    ensures PaidOut(v, s, u, symbol, price)
  {
  }

  lemma ProtectedPays(v: Venue, s: State, symbol: string, price: real)
    requires symbol in s.account.positions && Plain(s.account.positions[symbol])
    requires Leaves(s.rules, symbol, s.account.positions[symbol], price)
    ensures PaidOut(v, s, Protected(v, s, symbol, price).state, symbol, price)
  {
    var h := s.account.positions[symbol];
    var stop := Trailed(s.rules.trailing, symbol, h.side == LONG, price, h.stop);
    var t := s.(account := Bracketed(s.account, symbol, stop, h.target));
    ExitPays(v, s, symbol, price);
    ExitPays(v, t, symbol, price);
    assert t.account.positions - {symbol} == s.account.positions - {symbol};
    PaidAlike(v, s, t, ExitPosition(v, t, symbol, price).state, symbol, price);
  }

  /** What a position closed at its stop, at its target or back at the mean pays. */
  lemma LeavingPays(v: Venue, s: State, symbol: string, price: real)
    requires symbol in s.account.positions && Plain(s.account.positions[symbol])
    requires Leaves(s.rules, symbol, s.account.positions[symbol], price)
    requires !PartialDue(s.rules, symbol, s.account.positions[symbol], price)
    ensures PaidOut(v, s, ManagePosition(v, s, symbol, price).state, symbol, price)
  {
    var h := s.account.positions[symbol];
    var moved := MovedToBreakEven(s.(account := MarkOne(s.account, symbol, price)), symbol, price);
    MovedIs(s, symbol, price);
    EvenStopLeaves(s.rules, symbol, h, price);
    PartialIs(v, moved, symbol, h, price);
    ProtectedPays(v, moved, symbol, price);
    PaidAlike(v, s, moved, Protected(v, moved, symbol, price).state, symbol, price);
  }

  // ----- whole price updates -----

  /** A completed price update that triggers no resting order of the symbol leaves its position as
      management of it would have done on its own. */
  lemma UpdateManages(v: Venue, s: State, symbol: string, price: real)
    requires Protection.Spares(s, Protection.Tick(symbol, price), symbol) && !PriceUpdate(v, s, symbol, price).raised
    requires symbol in s.account.positions && Plain(s.account.positions[symbol])
    requires var h := s.account.positions[symbol];
             PartialDue(s.rules, symbol, h, price) ==> PartialTaken(s.rules, symbol, h, price)
    ensures var t, h := PriceUpdate(v, s, symbol, price).state, s.account.positions[symbol];
            && (symbol in t.account.positions <==> !Leaves(s.rules, symbol, h, price))
            && (symbol in t.account.positions ==> t.account.positions[symbol] == Kept(s.rules, symbol, h, price))
  {
    var priced, ids := Priced(s, symbol, price), OpenIds(s.orders, s.book, Some(symbol));
    Protection.MatchLeavesAlone(v, priced, ids, price, symbol);
    Protection.MatchKeepsRules(v, priced, ids, price);
    ManagedIs(v, MatchOrders(v, priced, ids, price).state, symbol, price);
  }

  // ----- rules -----

  /** Configuring a symbol sets its break-even rule and arms its partial exit anew, each other rule where
      it is given, and leaves the rules of every other symbol. */
  lemma ConfigureGives(v: Venue, s: State, symbol: string, r: Rules, other: string)
    requires other != symbol
    ensures var b := Step(v, s, Configure(symbol, r)).state.rules;
            && (BreaksEven(b, symbol) <==> r.breakEven)
            && (r.partialPercent.Some? ==>
                  symbol in b.partials && b.partials[symbol] == PartialExit(r.partialPercent.value, false))
            && (r.trailing.Some? ==> symbol in b.trailing && b.trailing[symbol] == r.trailing.value)
            && (r.meanReversion.Some? ==> symbol in b.meanReversion && b.meanReversion[symbol] == r.meanReversion.value)
            && (r.partialPercent.None? ==> b.partials == s.rules.partials)
            && (r.trailing.None? ==> b.trailing == s.rules.trailing)
            && (r.meanReversion.None? ==> b.meanReversion == s.rules.meanReversion)
            && (BreaksEven(b, other) <==> BreaksEven(s.rules, other))
            && (other in b.partials <==> other in s.rules.partials)
            && (other in b.trailing <==> other in s.rules.trailing)
            && (other in b.meanReversion <==> other in s.rules.meanReversion)
  {
  }
}
