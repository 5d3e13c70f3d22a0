/** What equity and drawdown mean: equity is what closing everything at the marks would leave, and the
    peak is the highest a snapshot has found. */
module PortfolioValue {
  import opened Prelude
  import opened Orders
  import opened Portfolio
  import opened PaperExchange
  import Money = PaperMoney

  // ----- equity -----

  /** The account after the positions of the listed symbols have been closed at their marks, free of
      fees. */
  function Liquidated(a: Account, symbols: seq<string>, marks: map<string, real>): Account {
    if symbols == [] then a
    else
      var b, symbol := Liquidated(a, symbols[..|symbols| - 1], marks), symbols[|symbols| - 1];
      if symbol in b.positions then Close(b, symbol, None, MarkPrice(b.positions[symbol], marks, symbol), 0.0).0 else b
  }

  /** A position is worth its quantity at its mark, with the sign it has on equity. */
  lemma MarkedWorth(h: Holding, price: real)
    requires 0.0 < h.quantity && (h.side == LONG || h.side == SHORT)
    ensures Of(Value, Marked(h, price)) == if h.side == LONG then h.quantity * price else -(h.quantity * price)
    ensures Marked(h, price).unrealized
         == if h.side == LONG then (price - h.average) * h.quantity else (h.average - price) * h.quantity
  {
  }

  /** Closing a whole position free of fees pays what it is worth at the price. */
  lemma CloseWhole(a: Account, symbol: string, price: real)
    requires Sound(a) && symbol in a.positions
    ensures var b := Close(a, symbol, None, price, 0.0).0;
            && Sound(b) && b.positions == a.positions - {symbol}
            && b.cash == a.cash + Of(Value, Marked(a.positions[symbol], price))
  {
    CloseKeepsSoundIff(a, symbol, None, price, 0.0);
    MarkedWorth(a.positions[symbol], price);
  }

  /** So at its mark it leaves equity where it was. */
  lemma CloseAtMark(a: Account, symbol: string, marks: map<string, real>)
    requires Sound(a) && symbol in a.positions
    ensures var b := Close(a, symbol, None, MarkPrice(a.positions[symbol], marks, symbol), 0.0).0;
            && Sound(b) && b.positions == a.positions - {symbol}
            && Snap(b, marks).1.equity == Snap(a, marks).1.equity
  {
    CloseWhole(a, symbol, MarkPrice(a.positions[symbol], marks, symbol));
    TotalSplit(Value, MarkAll(a.positions, marks), symbol);
    assert MarkAll(a.positions - {symbol}, marks) == MarkAll(a.positions, marks) - {symbol};
  }

  lemma {:induction false} LiquidatedKeepsEquity(a: Account, symbols: seq<string>, marks: map<string, real>)
    requires Sound(a)
    ensures var b := Liquidated(a, symbols, marks);
            && Sound(b) && Snap(b, marks).1.equity == Snap(a, marks).1.equity
            && forall x :: x in b.positions <==> x in a.positions && x !in symbols
  {
    if symbols != [] {
      var b, symbol := Liquidated(a, symbols[..|symbols| - 1], marks), symbols[|symbols| - 1];
      LiquidatedKeepsEquity(a, symbols[..|symbols| - 1], marks);
      if symbol in b.positions {
        CloseAtMark(b, symbol, marks);
      }
      assert forall x :: x in symbols <==> x in symbols[..|symbols| - 1] || x == symbol;
    }
  }

  /** The equity of a snapshot is the cash that closing every position at its mark would leave. */
  lemma EquityIsLiquidation(a: Account, symbols: seq<string>, marks: map<string, real>)
    requires Sound(a) && forall x :: x in a.positions ==> x in symbols
    ensures Liquidated(a, symbols, marks).cash == Snap(a, marks).1.equity
    ensures Liquidated(a, symbols, marks).positions == map[]
  {
    var b := Liquidated(a, symbols, marks);
    LiquidatedKeepsEquity(a, symbols, marks);
    assert b.positions.Keys == {};
    assert MarkAll(b.positions, marks) == map[];
  }

  // ----- peak and drawdown -----

  lemma ManageKeepsPeak(v: Venue, s: State, symbol: string, price: real)
    ensures ManagePosition(v, s, symbol, price).state.account.peak == s.account.peak
  {
  }

  lemma SettledKeepsPeak(s: State, id: OrderId, f: Fill)
    requires id in s.orders
    ensures Settled(s, id, f).state.account.peak == s.account.peak
  {
  }

  lemma TriggeredKeepsPeak(v: Venue, s: State, id: OrderId, price: real)
    requires id in s.orders
    ensures FillTriggered(v, s, id, price).state.account.peak == s.account.peak
  {
    var o := s.orders[id];
    var at := if o.kind == LIMIT || o.kind == STOP_LIMIT then LimitOr(o, price) else price;
    SettledKeepsPeak(s, id, NextFill(v, s, id, at, o.kind == LIMIT));
  }

  lemma {:induction false} MatchKeepsPeak(v: Venue, s: State, ids: seq<OrderId>, price: real)
    requires forall id :: id in ids ==> id in s.orders
    ensures MatchOrders(v, s, ids, price).state.account.peak == s.account.peak
  {
    if ids != [] {
      MatchKeepsPeak(v, s, ids[..|ids| - 1], price);
      TriggeredKeepsPeak(v, MatchOrders(v, s, ids[..|ids| - 1], price).state, ids[|ids| - 1], price);
    }
  }

  lemma CreateKeepsPeak(v: Venue, s: State, o: Order, market: Option<real>)
    ensures CreateOrder(v, s, o, market).state.account.peak == s.account.peak
  {
    if IntakeRefusal(v, s, o, market).None? && MayBecome(o.status, SUBMITTED) {
      var price := QuotedPrice(s, o, market).value;
      var kept, id := Arrived(v, s, o, price), Admitted(s, o).1.id.value;
      SettledKeepsPeak(kept, id, NextFill(v, kept, id, price, false));
      SettledKeepsPeak(kept, id, NextFill(v, kept, id, LimitOr(o, price), true));
    }
  }

  /** Only the snapshots move the peak. */
  lemma StepKeepsPeak(v: Venue, s: State, c: Command)
    requires !c.TakeSnapshot? && !c.DayEnd?
    ensures Step(v, s, c).state.account.peak == s.account.peak
  {
    match c
    case Create(o, market) => CreateKeepsPeak(v, s, o, market);
    case Price(symbol, price) =>
      var priced, ids := Priced(s, symbol, price), OpenIds(s.orders, s.book, Some(symbol));
      MatchKeepsPeak(v, priced, ids, price);
      ManageKeepsPeak(v, MatchOrders(v, priced, ids, price).state, symbol, price);
    case _ => Money.SettingKeepsAccount(v, s, c);
  }

  lemma {:induction false} CancelAllKeepsPeak(s: State, ids: seq<OrderId>)
    ensures CancelAll(s, ids).account == s.account && CancelAll(s, ids).feed == s.feed
  {
    if ids != [] {
      CancelAllKeepsPeak(s, ids[..|ids| - 1]);
    }
  }

  lemma {:induction false} FlattenedKeepsPeak(v: Venue, s: State, symbols: seq<string>)
    ensures Flattened(v, s, symbols).state.account.peak == s.account.peak
  {
    if symbols != [] {
      FlattenedKeepsPeak(v, s, symbols[..|symbols| - 1]);
    }
  }

  /** The state a day end takes its snapshots of, or nothing where closing a position has raised. */
  function Closing(v: Venue, s: State, symbols: seq<string>): Option<State> {
    var flat := Flatten(v, CancelAll(s, OpenIds(s.orders, s.book, None)), symbols);
    if flat.raised then None else Some(flat.state)
  }

  /** The equities that the snapshots of one command find: one of its own, or the two of a day end. */
  ghost function FoundBy(v: Venue, s: State, c: Command): seq<real> {
    match c
    case TakeSnapshot => [Snap(s.account, s.feed.prices).1.equity]
    case DayEnd(listing) =>
      var closing := Closing(v, s, listing);
      if closing.None? then []
      else
        var (marked, snap) := Snap(closing.value.account, closing.value.feed.prices);
        [snap.equity, Snap(marked, map[]).1.equity]
    case _ => []
  }

  /** The equities that the snapshots of a run have found, the starting cash first. */
  ghost function Equities(v: Venue, startingCash: real, commands: seq<Command>): seq<real> {
    if commands == [] then [startingCash]
    else
      var n := |commands| - 1;
      Equities(v, startingCash, commands[..n]) + FoundBy(v, Run(v, Opened(startingCash), commands[..n]), commands[n])
  }

  ghost predicate IsHighest(peak: real, equities: seq<real>) {
    peak in equities && forall x :: x in equities ==> x <= peak
  }

  lemma HigherStill(equities: seq<real>, peak: real, x: real)
    requires IsHighest(peak, equities)
    ensures IsHighest(Max(peak, x), equities + [x])
  {
    assert x in equities + [x] && forall y :: y in equities ==> y in equities + [x];
  }

  lemma DayEndRaisesPeak(v: Venue, s: State, listing: seq<string>, equities: seq<real>)
    requires IsHighest(s.account.peak, equities)
    ensures IsHighest(EndOfDay(v, s, listing).state.account.peak, equities + FoundBy(v, s, DayEnd(listing)))
  {
    var ids, found := OpenIds(s.orders, s.book, None), FoundBy(v, s, DayEnd(listing));
    CancelAllKeepsPeak(s, ids);
    FlattenedKeepsPeak(v, CancelAll(s, ids), listing);
    if found == [] {
      assert equities + found == equities;
    } else {
      HigherStill(equities, s.account.peak, found[0]);
      HigherStill(equities + [found[0]], Max(s.account.peak, found[0]), found[1]);
      assert equities + [found[0]] + [found[1]] == equities + found;
    }
  }

  lemma StepRaisesPeak(v: Venue, s: State, c: Command, equities: seq<real>)
    requires IsHighest(s.account.peak, equities)
    ensures IsHighest(Step(v, s, c).state.account.peak, equities + FoundBy(v, s, c))
  {
    match c
    case TakeSnapshot => HigherStill(equities, s.account.peak, Snap(s.account, s.feed.prices).1.equity);
    case DayEnd(listing) => DayEndRaisesPeak(v, s, listing, equities);
    case _ =>
      StepKeepsPeak(v, s, c);
      assert equities + [] == equities;
  }

  /** Over every run the peak is the highest equity a snapshot has found, the starting cash included. */
  lemma {:induction false} PeakIsHighest(v: Venue, startingCash: real, commands: seq<Command>)
    ensures IsHighest(Run(v, Opened(startingCash), commands).account.peak, Equities(v, startingCash, commands))
  {
    if commands != [] {
      var n := |commands| - 1;
      PeakIsHighest(v, startingCash, commands[..n]);
      StepRaisesPeak(v, Run(v, Opened(startingCash), commands[..n]), commands[n],
                     Equities(v, startingCash, commands[..n]));
    }
  }

  /** The fall of a snapshot's equity from its peak, as a share of that, or nothing where the peak is
      not positive. */
  predicate IsFall(snap: Snapshot) {
    0.0 <= snap.drawdown
    && if 0.0 < snap.peak then snap.drawdown * snap.peak == snap.peak - snap.equity else snap.drawdown == 0.0
  }

  /** And the drawdown a snapshot reports is the fall from that peak, its own equity included. */
  lemma DrawdownIsFall(v: Venue, startingCash: real, commands: seq<Command>)
    ensures var t := Run(v, Opened(startingCash), commands);
            var snap := Snap(t.account, t.feed.prices).1;
            IsHighest(snap.peak, Equities(v, startingCash, commands) + [snap.equity]) && IsFall(snap)
  {
    var t := Run(v, Opened(startingCash), commands);
    PeakIsHighest(v, startingCash, commands);
    SnapFalls(t.account, t.feed.prices, Equities(v, startingCash, commands));
  }

  lemma SnapFalls(a: Account, marks: map<string, real>, equities: seq<real>)
    requires IsHighest(a.peak, equities)
    ensures var snap := Snap(a, marks).1; IsHighest(snap.peak, equities + [snap.equity]) && IsFall(snap)
  {
    var snap := Snap(a, marks).1;
    HigherStill(equities, a.peak, snap.equity);
    ShareOf(snap.peak, snap.equity);
  }

  lemma ShareOf(peak: real, equity: real)
    requires equity <= peak
    ensures 0.0 < peak ==> Drawdown(peak, equity) * peak == peak - equity && 0.0 <= Drawdown(peak, equity)
  {
    if 0.0 < peak {
      NonNegativeShare(peak - equity, peak);
    }
  }

  lemma NonNegativeShare(x: real, n: real)
    requires 0.0 <= x && 0.0 < n
    ensures 0.0 <= x / n && x / n * n == x
  {
  }

  // ----- the rest of a snapshot -----

  /** What else a snapshot reports, and what it leaves: the positions as they are but for their marks. */
  lemma SnapshotReports(a: Account, marks: map<string, real>)
    ensures var (b, snap) := Snap(a, marks);
            && snap.cash == a.cash && snap.realized == a.realized && snap.fees == a.feesPaid
            && snap.available == (if a.cash < 0.0 then 0.0 else a.cash)
            && snap.dailyPnl == snap.equity - a.dayStart && snap.peak == b.peak
            && b == a.(positions := b.positions, peak := b.peak) && b.positions.Keys == a.positions.Keys
            && forall x :: x in a.positions ==>
                 var h, k := a.positions[x], b.positions[x];
                 k == h.(price := if x in marks then marks[x] else h.price, marketValue := k.marketValue,
                         unrealized := k.unrealized)
  {
  }
}
