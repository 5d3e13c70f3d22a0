/** Conservation of money over every run of the paper exchange. */
module PaperMoney {
  import opened Prelude
  import opened Orders
  import opened Portfolio
  import opened PaperExchange

  /** Whether a close of exactly `quantity + DUST` has happened. */
  predicate Dusted(a: Account) { a.audit.dusted }

  /** Soundness is kept unless the one bad close has happened by the end, and then so is capital. */
  ghost predicate Keeps(a: Account, b: Account) {
    && (Dusted(a) ==> Dusted(b))
    && (Sound(a) && !Dusted(b) ==> Sound(b) && Capital(b) == Capital(a))
  }

  lemma KeepsThrough(a: Account, b: Account, c: Account)
    requires Keeps(a, b) && Keeps(b, c)
    ensures Keeps(a, c)
  {
  }

  // ----- trades -----

  lemma ClosedKeeps(a: Account, symbol: string, quantity: Option<real>, price: real, fee: real)
    ensures var (b, refusal) := Close(a, symbol, quantity, price, fee);
            && Keeps(a, b)
            && b.feesPaid == a.feesPaid + (if refusal.Some? then 0.0 else fee)
  {
    CloseKeepsCapital(a, symbol, quantity, price, fee);
    if Sound(a) && !Dusted(a) {
      CloseKeepsSoundIff(a, symbol, quantity, price, fee);
    }
  }

  lemma OpenedKeeps(a: Account, symbol: string, side: SideName, quantity: real, price: real, fee: real,
                    stop: Option<real>, target: Option<real>)
    requires side == LONG || side == SHORT
    requires symbol in a.positions && Sound(a) ==> a.positions[symbol].side == side
    ensures var (b, refusal) := Open(a, symbol, side, quantity, price, fee, stop, target);
            && Keeps(a, b)
            && (Sound(a) && refusal.Some? ==> b == a)
            && (refusal.None? ==> b.feesPaid == a.feesPaid + fee)
  {
    if Sound(a) {
      OpenKeepsSound(a, symbol, side, quantity, price, fee, stop, target);
      if Open(a, symbol, side, quantity, price, fee, stop, target).1.None? {
        OpenKeepsCapital(a, symbol, side, quantity, price, fee, stop, target);
      }
    }
  }

  /** The exchange never opens against a position: a refused trade leaves the account alone,
      any other keeps its capital. */
  lemma TradedKeeps(a: Account, o: Order, quantity: real, price: real, fee: real)
    ensures var (b, refusal) := Traded(a, o, quantity, price, fee);
            && Keeps(a, b)
            && (Sound(a) && refusal.Some? ==> b == a)
            && (refusal.None? ==> b.feesPaid == a.feesPaid + fee)
  {
    var against := if Costs.IsBuy(o.side) then o.symbol in a.positions && IsShort(a.positions[o.symbol].side)
                   else o.symbol in a.positions && IsLong(a.positions[o.symbol].side);
    if against {
      ClosedKeeps(a, o.symbol, Some(quantity), price, fee);
    } else {
      OpenedKeeps(a, o.symbol, if Costs.IsBuy(o.side) then LONG else SHORT, quantity, price, fee,
                  o.stopLoss, o.takeProfit);
    }
  }

  // ----- marks and brackets -----

  lemma RestatedKeeps(a: Account, symbol: string, h: Holding)
    requires symbol in a.positions
    requires h == a.positions[symbol].(price := h.price, marketValue := h.marketValue, unrealized := h.unrealized,
                                       stop := h.stop, target := h.target)
    ensures Keeps(a, a.(positions := a.positions[symbol := h]))
  {
    TotalPut(Cost, a.positions, symbol, h);
    assert Of(Cost, h) == Of(Cost, a.positions[symbol]);
  }

  lemma BracketedKeeps(a: Account, symbol: string, stop: Option<real>, target: Option<real>)
    requires symbol in a.positions
    ensures Keeps(a, Bracketed(a, symbol, stop, target))
  {
    RestatedKeeps(a, symbol, a.positions[symbol].(stop := stop, target := target));
  }

  lemma MarkOneKeeps(a: Account, symbol: string, price: real)
    requires symbol in a.positions
    ensures Keeps(a, MarkOne(a, symbol, price))
  {
    RestatedKeeps(a, symbol, Marked(a.positions[symbol], price));
  }

  lemma WithBracketKeeps(a: Account, o: Order)
    ensures Keeps(a, WithBracket(a, o))
  {
    if o.symbol in a.positions {
      var h := a.positions[o.symbol];
      BracketedKeeps(a, o.symbol, if o.stopLoss.Some? then o.stopLoss else h.stop,
                     if o.takeProfit.Some? then o.takeProfit else h.target);
    }
  }

  lemma SnapKeeps(a: Account, marks: map<string, real>)
    ensures Keeps(a, Snap(a, marks).0)
  {
    if Sound(a) {
      SnapshotEquity(a, marks);
    }
  }

  // ----- the stages of an operation -----

  lemma SettledKeeps(s: State, id: OrderId, f: Fill)
    requires id in s.orders
    ensures Keeps(s.account, Settled(s, id, f).state.account)
  {
    var (account, refusal) := Traded(s.account, s.orders[id], f.quantity, f.price, f.fee);
    TradedKeeps(s.account, s.orders[id], f.quantity, f.price, f.fee);
    WithBracketKeeps(account, s.orders[id]);
    KeepsThrough(s.account, account, WithBracket(account, s.orders[id]));
    assert Settled(s, id, f).state.account in {account, WithBracket(account, s.orders[id])};
  }

  lemma FillMarketKeeps(v: Venue, s: State, id: OrderId, price: real, limitFill: bool)
    requires id in s.orders
    ensures Keeps(s.account, FillMarket(v, s, id, price, limitFill).state.account)
  {
    SettledKeeps(s, id, NextFill(v, s, id, price, limitFill));
  }

  lemma FillTriggeredKeeps(v: Venue, s: State, id: OrderId, price: real)
    requires id in s.orders
    ensures Keeps(s.account, FillTriggered(v, s, id, price).state.account)
  {
    var o := s.orders[id];
    var limited := o.kind == LIMIT || o.kind == STOP_LIMIT;
    FillMarketKeeps(v, s, id, if limited then LimitOr(o, price) else price, o.kind == LIMIT);
  }

  lemma {:induction false} MatchKeeps(v: Venue, s: State, ids: seq<OrderId>, price: real)
    requires forall id :: id in ids ==> id in s.orders
    ensures Keeps(s.account, MatchOrders(v, s, ids, price).state.account)
  {
    if ids != [] {
      var n := |ids| - 1;
      var before := MatchOrders(v, s, ids[..n], price);
      MatchKeeps(v, s, ids[..n], price);
      if !before.raised {
        var after := FillTriggered(v, before.state, ids[n], price).state;
        FillTriggeredKeeps(v, before.state, ids[n], price);
        KeepsThrough(s.account, before.state.account, after.account);
      }
    }
  }

  lemma ClosedOutKeeps(v: Venue, s: State, symbol: string, quantity: Option<real>, price: real)
    requires symbol in s.account.positions
    ensures Keeps(s.account, ClosedOut(v, s, symbol, quantity, price).state.account)
  {
    var q := if quantity.None? then s.account.positions[symbol].quantity else quantity.value;
    ClosedKeeps(s.account, symbol, quantity, price, ExitFee(v, symbol, q, price));
  }

  lemma ExitKeeps(v: Venue, s: State, symbol: string, price: real)
    ensures Keeps(s.account, ExitPosition(v, s, symbol, price).state.account)
  {
    if symbol in s.account.positions {
      ClosedOutKeeps(v, s, symbol, None, price);
    }
  }

  lemma PartialExitedKeeps(v: Venue, s: State, symbol: string, risk: Option<real>, price: real)
    requires symbol in s.account.positions
    ensures Keeps(s.account, PartialExited(v, s, symbol, risk, price).state.account)
  {
    var h := s.account.positions[symbol];
    if PartialFires(s, symbol, h, risk, price) {
      ClosedOutKeeps(v, s, symbol, Some(PartialQuantity(h, s.rules.partials[symbol])), price);
    }
  }

  lemma ProtectedKeeps(v: Venue, s: State, symbol: string, price: real)
    ensures Keeps(s.account, Protected(v, s, symbol, price).state.account)
  {
    if symbol in s.account.positions {
      var h := s.account.positions[symbol];
      var stop := Trailing.Trailed(s.rules.trailing, symbol, IsLong(h.side), price, h.stop);
      var t := s.(account := Bracketed(s.account, symbol, stop, h.target));
      BracketedKeeps(s.account, symbol, stop, h.target);
      ExitKeeps(v, s, symbol, price);
      ExitKeeps(v, t, symbol, price);
      KeepsThrough(s.account, t.account, ExitPosition(v, t, symbol, price).state.account);
    }
  }

  lemma ManageKeeps(v: Venue, s: State, symbol: string, price: real)
    ensures Keeps(s.account, ManagePosition(v, s, symbol, price).state.account)
  {
    if symbol in s.account.positions {
      var marked := s.(account := MarkOne(s.account, symbol, price));
      var moved := MovedToBreakEven(marked, symbol, price);
      var exited := PartialExited(v, moved, symbol, RiskOf(s.account.positions[symbol]), price).state;
      var h := marked.account.positions[symbol];
      MarkOneKeeps(s.account, symbol, price);
      BracketedKeeps(marked.account, symbol, BreakEvenStop(h, IsArmed(marked, symbol), price), h.target);
      KeepsThrough(s.account, marked.account, moved.account);
      PartialExitedKeeps(v, moved, symbol, RiskOf(s.account.positions[symbol]), price);
      KeepsThrough(s.account, moved.account, exited.account);
      ProtectedKeeps(v, exited, symbol, price);
      KeepsThrough(s.account, exited.account, Protected(v, exited, symbol, price).state.account);
    }
  }

  lemma PriceUpdateKeeps(v: Venue, s: State, symbol: string, price: real)
    ensures Keeps(s.account, PriceUpdate(v, s, symbol, price).state.account)
  {
    var priced := Priced(s, symbol, price);
    var ids := OpenIds(s.orders, s.book, Some(symbol));
    var matched := MatchOrders(v, priced, ids, price).state;
    MatchKeeps(v, priced, ids, price);
    ManageKeeps(v, matched, symbol, price);
    KeepsThrough(s.account, matched.account, ManagePosition(v, matched, symbol, price).state.account);
  }

  lemma CreateKeeps(v: Venue, s: State, o: Order, market: Option<real>)
    ensures Keeps(s.account, CreateOrder(v, s, o, market).state.account)
  {
    var refusal := IntakeRefusal(v, s, o, market);
    if refusal.Some? {
      TurnedAwayKeepsAccount(v, s, o, refusal.value);
    } else if MayBecome(o.status, SUBMITTED) {
      AcceptedKeeps(v, s, o, QuotedPrice(s, o, market).value);
    }
  }

  lemma TurnedAwayKeepsAccount(v: Venue, s: State, o: Order, reason: string)
    ensures TurnedAway(v, s, o, reason).account == s.account
  {
  }

  lemma AcceptedKeeps(v: Venue, s: State, o: Order, price: real)
    ensures Keeps(s.account, Accepted(v, s, o, price).state.account)
  {
    var kept, id := Arrived(v, s, o, price), Admitted(s, o).1.id.value;
    FillMarketKeeps(v, kept, id, if o.kind == MARKET then price else LimitOr(o, price), o.kind != MARKET);
  }

  lemma {:induction false} CancelAllKeepsAccount(s: State, ids: seq<OrderId>)
    ensures CancelAll(s, ids).account == s.account && CancelAll(s, ids).exitFees == s.exitFees
  {
    if ids != [] {
      CancelAllKeepsAccount(s, ids[..|ids| - 1]);
    }
  }

  lemma {:induction false} FlattenedKeeps(v: Venue, s: State, symbols: seq<string>)
    ensures Keeps(s.account, Flattened(v, s, symbols).state.account)
  {
    if symbols != [] {
      var n := |symbols| - 1;
      var before := Flattened(v, s, symbols[..n]);
      FlattenedKeeps(v, s, symbols[..n]);
      if !before.raised && symbols[n] in before.state.account.positions {
        var t, symbol := before.state, symbols[n];
        var price := if symbol in t.feed.prices then t.feed.prices[symbol] else t.account.positions[symbol].price;
        ExitKeeps(v, t, symbol, price);
        KeepsThrough(s.account, t.account, ExitPosition(v, t, symbol, price).state.account);
      }
    }
  }

  lemma DayClosedKeeps(a: Account, prices: map<string, real>)
    ensures Keeps(a, DayClosed(a, prices))
  {
    var b := Snap(a, prices).0;
    SnapKeeps(a, prices);
    SnapKeeps(b, map[]);
    KeepsThrough(a, b, Snap(b, map[]).0);
  }

  lemma EndOfDayKeeps(v: Venue, s: State, symbols: seq<string>)
    ensures Keeps(s.account, EndOfDay(v, s, symbols).state.account)
  {
    var ids := OpenIds(s.orders, s.book, None);
    var cancelled := CancelAll(s, ids);
    var flat := Flatten(v, cancelled, symbols).state;
    CancelAllKeepsAccount(s, ids);
    FlattenedKeeps(v, cancelled, symbols);
    DayClosedKeeps(flat.account, flat.feed.prices);
    KeepsThrough(s.account, flat.account, DayClosed(flat.account, flat.feed.prices));
  }

  lemma SettingKeepsAccount(v: Venue, s: State, c: Command)
    ensures Setting(v, s, c).account == s.account
  {
  }

  /** Every command, on any order, keeps soundness and capital. */
  lemma StepKeeps(v: Venue, s: State, c: Command)
    ensures Keeps(s.account, Step(v, s, c).state.account)
  {
    match c
    case Create(o, market) => CreateKeeps(v, s, o, market);
    case Price(symbol, price) => PriceUpdateKeeps(v, s, symbol, price);
    case DayEnd(listing) => EndOfDayKeeps(v, s, listing);
    case TakeSnapshot => SnapKeeps(s.account, s.feed.prices);
    case _ => SettingKeepsAccount(v, s, c);
  }

  lemma {:induction false} RunKeeps(v: Venue, s: State, commands: seq<Command>)
    ensures Keeps(s.account, Run(v, s, commands).account)
  {
    if commands != [] {
      var before := Run(v, s, commands[..|commands| - 1]);
      RunKeeps(v, s, commands[..|commands| - 1]);
      StepKeeps(v, before, commands[|commands| - 1]);
      KeepsThrough(s.account, before.account, Run(v, s, commands).account);
    }
  }

  /** Conservation in the portfolio's own terms: cash plus positions at cost is the starting
      cash plus realized profit, less the fees paid on opens, up to the residues of full closes,
      which stay within their bound; and a snapshot adds exactly the unrealized profit. */
  ghost predicate MoneyConserved(a: Account, startingCash: real, marks: map<string, real>) {
    var snap := Snap(a, marks).1;
    && Abs(Book(a) - (startingCash + a.realized - a.audit.openFees)) <= a.audit.dropBound
    && snap.equity == Book(a) + snap.unrealized
  }

  lemma CapitalIsMoney(a: Account, marks: map<string, real>)
    requires Sound(a)
    ensures MoneyConserved(a, Capital(a), marks)
  {
    SnapshotEquity(a, marks);
  }

  /** Every run of every kind of command from a fresh exchange conserves money, at any marks,
      as long as nothing has closed exactly `quantity + DUST`. */
  lemma MoneyIsConserved(v: Venue, startingCash: real, commands: seq<Command>, marks: map<string, real>)
    requires !Dusted(Run(v, Opened(startingCash), commands).account)
    ensures MoneyConserved(Run(v, Opened(startingCash), commands).account, startingCash, marks)
  {
    var s := Opened(startingCash);
    RunKeeps(v, s, commands);
    assert Capital(s.account) == startingCash;
    CapitalIsMoney(Run(v, s, commands).account, marks);
  }
}
