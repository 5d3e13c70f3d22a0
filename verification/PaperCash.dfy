/** A run that never opens a short never runs out of cash. */
module PaperCash {
  import opened Prelude
  import opened Costs
  import opened Orders
  import opened Portfolio
  import opened PaperExchange
  import Ledger = PaperLedger
  import Money = PaperMoney

  /** Long positions only, at prices that are not negative, and cash at most `CASH_SLACK` below
      zero. */
  predicate Spot(a: Account) {
    && a.cash >= -CASH_SLACK
    && forall s :: s in a.positions ==> a.positions[s].side == LONG && a.positions[s].price >= 0.0
  }

  predicate Shorted(a: Account) { a.audit.shorted }

  ghost predicate Keeps(a: Account, b: Account) {
    && (Shorted(a) ==> Shorted(b))
    && (Spot(a) && !Shorted(b) ==> Spot(b))
  }

  lemma KeepsThrough(a: Account, b: Account, c: Account)
    requires Keeps(a, b) && Keeps(b, c)
    ensures Keeps(a, c)
  {
  }

  /** Rates of at most 100 % and slippage of at most 100 %. */
  ghost predicate Moderate(v: Venue) {
    v.fees.Proper() && v.slippage.maxBps <= 10000.0
  }

  /** A price that is not negative and a fee no larger than the traded value. */
  predicate FairTrade(quantity: real, price: real, fee: real) {
    0.0 <= price && (quantity > 0.0 ==> fee <= quantity * price)
  }

  lemma FeeWithinNotional(fees: FeeSchedule, quantity: real, price: real, asset: AssetClass,
                          liquidity: Liquidity, venue: Option<string>)
    requires fees.Proper() && 0.0 <= price
    ensures FairTrade(quantity, price, fees.Fee(quantity * price, asset, liquidity, venue))
  {
    if quantity > 0.0 {
      NonNegativeProduct(quantity, price);
      NonNegativeProduct(quantity * price, 1.0 - fees.Rate(asset, liquidity, venue));
    }
  }

  /** The fill an open order would get at a price that is not negative: a positive part of what
      remains, at a price that is not negative, no better than the market's unless it is the
      limit, and for a fee of at most the traded value. */
  lemma FillIsFair(v: Venue, s: State, id: OrderId, price: real, limitFill: bool)
    requires id in s.orders && IsOpen(s.orders[id].status) && Ledger.QuantitiesFit(s.orders[id])
    requires Moderate(v) && 0.0 <= v.slippage.maxBps && 0.0 <= price
    requires s.orders[id].limit.Some? ==> 0.0 <= s.orders[id].limit.value
    ensures var o, f := s.orders[id], NextFill(v, s, id, price, limitFill);
            && 0.0 < f.quantity <= Remaining(o) && 0.0 <= f.price && f.fee <= f.quantity * f.price
            && (limitFill && o.limit.Some? ==> f.price == o.limit.value)
            && (!limitFill && o.asset != PREDICTION ==> if IsBuy(o.side) then price <= f.price else f.price <= price)
  {
    var o, f := s.orders[id], NextFill(v, s, id, price, limitFill);
    SlippageIsAdverse(v.slippage, o.side, price, o.asset == PREDICTION, Remaining(o));
    FeeWithinNotional(v.fees, f.quantity, f.price, o.asset, if limitFill then Maker else Taker, Some(NAME));
  }

  /** Selling out of a long brings cash in. */
  lemma ClosedKeeps(a: Account, symbol: string, quantity: Option<real>, price: real, fee: real)
    requires symbol in a.positions
    requires FairTrade(if quantity.None? then a.positions[symbol].quantity else quantity.value, price, fee)
    ensures Keeps(a, Close(a, symbol, quantity, price, fee).0)
  {
  }

  /** Buying is checked against cash, and refused at a price that is not positive. */
  lemma TradedKeeps(a: Account, o: Order, quantity: real, price: real, fee: real)
    requires IsBuy(o.side) || FairTrade(quantity, price, fee)
    ensures Keeps(a, Traded(a, o, quantity, price, fee).0)
  {
    if o.symbol in a.positions && !IsBuy(o.side) {
      ClosedKeeps(a, o.symbol, Some(quantity), price, fee);
    }
  }

  lemma MarksKeep(a: Account, symbol: string, price: real, stop: Option<real>, target: Option<real>)
    requires symbol in a.positions && 0.0 <= price
    ensures Keeps(a, MarkOne(a, symbol, price)) && Keeps(a, Bracketed(a, symbol, stop, target))
  {
  }

  // ----- the stages of an operation -----

  /** No order carries a negative limit price and the feed holds no negative price. */
  ghost predicate InputsFit(s: State) {
    && (forall id :: id in s.orders && s.orders[id].limit.Some? ==> 0.0 <= s.orders[id].limit.value)
    && (forall symbol :: symbol in s.feed.prices ==> 0.0 <= s.feed.prices[symbol])
  }

  lemma SettledKeeps(s: State, id: OrderId, f: Fill)
    requires id in s.orders && (IsBuy(s.orders[id].side) || FairTrade(f.quantity, f.price, f.fee)) && InputsFit(s)
    ensures Keeps(s.account, Settled(s, id, f).state.account) && InputsFit(Settled(s, id, f).state)
  {
    TradedKeeps(s.account, s.orders[id], f.quantity, f.price, f.fee);
  }

  lemma FillMarketKeeps(v: Venue, s: State, id: OrderId, price: real, limitFill: bool)
    requires id in s.orders && Moderate(v) && 0.0 <= price && InputsFit(s)
    ensures var t := FillMarket(v, s, id, price, limitFill).state;
            Keeps(s.account, t.account) && InputsFit(t)
  {
    var o, f := s.orders[id], NextFill(v, s, id, price, limitFill);
    SlippageIsAdverse(v.slippage, o.side, price, o.asset == PREDICTION, Remaining(o));
    if !IsBuy(o.side) {
      FeeWithinNotional(v.fees, f.quantity, f.price, o.asset, if limitFill then Maker else Taker, Some(NAME));
    }
    SettledKeeps(s, id, f);
  }

  lemma FillTriggeredKeeps(v: Venue, s: State, id: OrderId, price: real)
    requires id in s.orders && Moderate(v) && 0.0 <= price && InputsFit(s)
    ensures var t := FillTriggered(v, s, id, price).state;
            Keeps(s.account, t.account) && InputsFit(t)
  {
    var o := s.orders[id];
    var limited := o.kind == LIMIT || o.kind == STOP_LIMIT;
    FillMarketKeeps(v, s, id, if limited then LimitOr(o, price) else price, o.kind == LIMIT);
  }

  lemma {:induction false} MatchKeeps(v: Venue, s: State, ids: seq<OrderId>, price: real)
    requires forall id :: id in ids ==> id in s.orders
    requires Moderate(v) && 0.0 <= price && InputsFit(s)
    ensures var t := MatchOrders(v, s, ids, price).state;
            Keeps(s.account, t.account) && InputsFit(t)
  {
    if ids != [] {
      var n := |ids| - 1;
      var before := MatchOrders(v, s, ids[..n], price);
      MatchKeeps(v, s, ids[..n], price);
      if !before.raised {
        var after := FillTriggered(v, before.state, ids[n], price).state;
        FillTriggeredKeeps(v, before.state, ids[n], price);
        KeepsThrough(s.account, before.state.account, after.account);
      }
    }
  }

  lemma ClosedOutKeeps(v: Venue, s: State, symbol: string, quantity: Option<real>, price: real)
    requires symbol in s.account.positions && Moderate(v) && 0.0 <= price
    ensures var t := ClosedOut(v, s, symbol, quantity, price).state;
            Keeps(s.account, t.account) && (InputsFit(s) ==> InputsFit(t))
  {
    var q := if quantity.None? then s.account.positions[symbol].quantity else quantity.value;
    FeeWithinNotional(v.fees, q, price, AssetOf(v, symbol), Taker, None);
    ClosedKeeps(s.account, symbol, quantity, price, ExitFee(v, symbol, q, price));
  }

  lemma ExitKeeps(v: Venue, s: State, symbol: string, price: real)
    requires Moderate(v) && 0.0 <= price
    ensures var t := ExitPosition(v, s, symbol, price).state;
            Keeps(s.account, t.account) && (InputsFit(s) ==> InputsFit(t))
  {
    if symbol in s.account.positions {
      ClosedOutKeeps(v, s, symbol, None, price);
    }
  }

  lemma PartialExitedKeeps(v: Venue, s: State, symbol: string, risk: Option<real>, price: real)
    requires symbol in s.account.positions && Moderate(v) && 0.0 <= price
    ensures var t := PartialExited(v, s, symbol, risk, price).state;
            Keeps(s.account, t.account) && (InputsFit(s) ==> InputsFit(t))
  {
    var h := s.account.positions[symbol];
    if PartialFires(s, symbol, h, risk, price) {
      ClosedOutKeeps(v, s, symbol, Some(PartialQuantity(h, s.rules.partials[symbol])), price);
    }
  }

  lemma ProtectedKeeps(v: Venue, s: State, symbol: string, price: real)
    requires Moderate(v) && 0.0 <= price
    ensures var t := Protected(v, s, symbol, price).state;
            Keeps(s.account, t.account) && (InputsFit(s) ==> InputsFit(t))
  {
    if symbol in s.account.positions {
      var h := s.account.positions[symbol];
      var stop := Trailing.Trailed(s.rules.trailing, symbol, IsLong(h.side), price, h.stop);
      var t := s.(account := Bracketed(s.account, symbol, stop, h.target));
      MarksKeep(s.account, symbol, price, stop, h.target);
      ExitKeeps(v, s, symbol, price);
      ExitKeeps(v, t, symbol, price);
      KeepsThrough(s.account, t.account, ExitPosition(v, t, symbol, price).state.account);
    }
  }

  lemma ManageKeeps(v: Venue, s: State, symbol: string, price: real)
    requires Moderate(v) && 0.0 <= price
    ensures var t := ManagePosition(v, s, symbol, price).state;
            Keeps(s.account, t.account) && (InputsFit(s) ==> InputsFit(t))
  {
    if symbol in s.account.positions {
      var marked := s.(account := MarkOne(s.account, symbol, price));
      var moved := MovedToBreakEven(marked, symbol, price);
      var exited := PartialExited(v, moved, symbol, RiskOf(s.account.positions[symbol]), price).state;
      var h := marked.account.positions[symbol];
      MarksKeep(s.account, symbol, price, h.stop, h.target);
      MarksKeep(marked.account, symbol, price, BreakEvenStop(h, IsArmed(marked, symbol), price), h.target);
      KeepsThrough(s.account, marked.account, moved.account);
      PartialExitedKeeps(v, moved, symbol, RiskOf(s.account.positions[symbol]), price);
      KeepsThrough(s.account, moved.account, exited.account);
      ProtectedKeeps(v, exited, symbol, price);
      KeepsThrough(s.account, exited.account, Protected(v, exited, symbol, price).state.account);
    }
  }

  lemma PriceUpdateKeeps(v: Venue, s: State, symbol: string, price: real)
    requires Moderate(v) && 0.0 <= price && InputsFit(s)
    ensures var t := PriceUpdate(v, s, symbol, price).state;
            Keeps(s.account, t.account) && InputsFit(t)
  {
    var priced := Priced(s, symbol, price);
    var ids := OpenIds(s.orders, s.book, Some(symbol));
    var matched := MatchOrders(v, priced, ids, price).state;
    MatchKeeps(v, priced, ids, price);
    ManageKeeps(v, matched, symbol, price);
    KeepsThrough(s.account, matched.account, ManagePosition(v, matched, symbol, price).state.account);
  }

  lemma CreateKeeps(v: Venue, s: State, o: Order, market: Option<real>)
    requires Moderate(v) && InputsFit(s) && (o.limit.Some? ==> 0.0 <= o.limit.value)
    ensures var t := CreateOrder(v, s, o, market).state;
            Keeps(s.account, t.account) && InputsFit(t)
  {
    var refusal := IntakeRefusal(v, s, o, market);
    if refusal.Some? {
      TurnedAwayKeeps(v, s, o, refusal.value);
    } else if MayBecome(o.status, SUBMITTED) {
      var price := QuotedPrice(s, o, market).value;
      var kept, id := Arrived(v, s, o, price), Admitted(s, o).1.id.value;
      assert InputsFit(kept);
      FillMarketKeeps(v, kept, id, if o.kind == MARKET then price else LimitOr(o, price), o.kind != MARKET);
    }
  }

  lemma TurnedAwayKeeps(v: Venue, s: State, o: Order, reason: string)
    requires InputsFit(s) && (o.limit.Some? ==> 0.0 <= o.limit.value)
    ensures InputsFit(TurnedAway(v, s, o, reason)) && TurnedAway(v, s, o, reason).account == s.account
  {
    var (t, order) := Admitted(s, o);
    assert InputsFit(Stored(t, order.(status := REJECTED, reason := reason)));
  }

  // ----- runs -----

  /** Inputs as a market gives them: prices and limits that are not negative. */
  ghost predicate Sensible(c: Command) {
    match c
    case Create(o, _) => o.limit.Some? ==> 0.0 <= o.limit.value
    case Price(_, price) => 0.0 <= price
    case SetPrice(_, price) => 0.0 <= price
    case _ => true
  }

  lemma {:induction false} CancelAllKeepsLimits(s: State, ids: seq<OrderId>)
    requires InputsFit(s)
    ensures InputsFit(CancelAll(s, ids))
  {
    if ids != [] {
      CancelAllKeepsLimits(s, ids[..|ids| - 1]);
    }
  }

  lemma {:induction false} FlattenedKeeps(v: Venue, s: State, symbols: seq<string>)
    requires Moderate(v) && InputsFit(s)
    ensures var t := Flattened(v, s, symbols).state;
            Keeps(s.account, t.account) && InputsFit(t)
  {
    if symbols != [] {
      var n := |symbols| - 1;
      var before := Flattened(v, s, symbols[..n]);
      FlattenedKeeps(v, s, symbols[..n]);
      if !before.raised && symbols[n] in before.state.account.positions && Spot(before.state.account) {
        var t, symbol := before.state, symbols[n];
        var price := if symbol in t.feed.prices then t.feed.prices[symbol] else t.account.positions[symbol].price;
        ExitKeeps(v, t, symbol, price);
        KeepsThrough(s.account, t.account, ExitPosition(v, t, symbol, price).state.account);
      }
    }
  }

  lemma SnapKeeps(a: Account, marks: map<string, real>)
    requires forall symbol :: symbol in marks ==> 0.0 <= marks[symbol]
    ensures Keeps(a, Snap(a, marks).0)
  {
  }

  lemma DayEndKeeps(v: Venue, s: State, symbols: seq<string>)
    requires Moderate(v) && InputsFit(s)
    ensures var t := EndOfDay(v, s, symbols).state;
            Keeps(s.account, t.account) && InputsFit(t)
  {
    var ids := OpenIds(s.orders, s.book, None);
    var cancelled := CancelAll(s, ids);
    var flat := Flatten(v, cancelled, symbols).state;
    var b := Snap(flat.account, flat.feed.prices).0;
    Money.CancelAllKeepsAccount(s, ids);
    CancelAllKeepsLimits(s, ids);
    FlattenedKeeps(v, cancelled, symbols);
    SnapKeeps(flat.account, flat.feed.prices);
    SnapKeeps(b, map[]);
    KeepsThrough(flat.account, b, Snap(b, map[]).0);
    KeepsThrough(s.account, flat.account, DayClosed(flat.account, flat.feed.prices));
  }

  lemma StepKeeps(v: Venue, s: State, c: Command)
    requires Moderate(v) && InputsFit(s) && Sensible(c)
    ensures var t := Step(v, s, c).state;
            Keeps(s.account, t.account) && InputsFit(t)
  {
    match c
    case Create(o, market) => CreateKeeps(v, s, o, market);
    case Price(symbol, price) => PriceUpdateKeeps(v, s, symbol, price);
    case DayEnd(listing) => DayEndKeeps(v, s, listing);
    case Cancel(_) | Expire(_) =>
    case TakeSnapshot => SnapKeeps(s.account, s.feed.prices);
    case _ =>
      Ledger.SettingSame(v, s, c);
      Money.SettingKeepsAccount(v, s, c);
  }

  /** From a fresh exchange, over every run on market inputs that opens no short, cash never
      falls more than the comparison slack below zero. */
  lemma {:induction false} CashFloor(v: Venue, startingCash: real, commands: seq<Command>)
    requires Moderate(v) && 0.0 <= startingCash
    requires forall i :: 0 <= i < |commands| ==> Sensible(commands[i])
    ensures var t := Run(v, Opened(startingCash), commands);
            && InputsFit(t)
            && (!Shorted(t.account) ==> Spot(t.account))
  {
    if commands != [] {
      var n := |commands| - 1;
      CashFloor(v, startingCash, commands[..n]);
      StepKeeps(v, Run(v, Opened(startingCash), commands[..n]), commands[n]);
    }
  }
}
