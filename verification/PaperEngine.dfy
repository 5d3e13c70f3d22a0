/** The paper exchange as the program keeps it: a mutable object over a mutable portfolio
    and trailing-stop engine. Every method is proved to take the state where the
    corresponding transition of `PaperExchange` takes it. */
module PaperEngine {
  import opened Prelude
  import opened Costs
  import opened Orders
  import opened Portfolio
  import opened PortfolioManagers
  import opened Trailing
  import opened PaperExchange

  class Exchange {
    const venue: Venue
    const portfolio: PortfolioManager
    const trailing: TrailingStopEngine
    var orders: map<OrderId, Order>
    var book: seq<OrderId>
    var fills: seq<Fill>
    var orderSeq: nat
    var clients: set<string>
    var prices: map<string, real>
    var stale: set<string>
    var health: Health
    var breakEven: map<string, bool>
    var partials: map<string, PartialExit>
    var meanReversion: map<string, real>
    ghost var exitFees: real

    ghost predicate Valid()
      reads this, portfolio, portfolio.Repr
    {
      portfolio.Valid() && this !in portfolio.Repr && trailing !in portfolio.Repr
    }

    ghost function Value(): State
      reads this, portfolio, trailing
    {
      State(portfolio.model, orders, book, fills, orderSeq, clients, Feed(prices, stale), health,
            RuleBook(breakEven, partials, meanReversion, trailing.rules), exitFees)
    }

    constructor (venue: Venue, startingCash: real)
      ensures Valid() && fresh(portfolio) && fresh(trailing) && fresh(portfolio.Repr)
      ensures this.venue == venue && Value() == Opened(startingCash)
    {
      this.venue := venue;
      portfolio := new PortfolioManager(startingCash);
      trailing := new TrailingStopEngine();
      orders, book, fills, orderSeq, clients := map[], [], [], 0, {};
      prices, stale, health := map[], {}, Health(false, "", 0, NoFailure);
      breakEven, partials, meanReversion, exitFees := map[], map[], map[], 0.0;
    }

    // ----- fills -----

    /** The try block of a fill: cover or close what is held against the order, or open. */
    method Trade(o: Order, quantity: real, fillPrice: real, fee: real) returns (refusal: Option<Refusal>)
      requires Valid()
      modifies portfolio, portfolio.Repr
      ensures Valid() && fresh(portfolio.Repr - old(portfolio.Repr))
      ensures (portfolio.model, refusal) == Traded(old(portfolio.model), o, quantity, fillPrice, fee)
    {
      var pnl: real;
      var held := o.symbol in portfolio.positions;
      if IsBuy(o.side) {
        if held && IsShort(portfolio.positions[o.symbol].side) {
          refusal, pnl := portfolio.ClosePosition(o.symbol, Some(quantity), fillPrice, fee);
        } else {
          refusal := portfolio.OpenPosition(o.symbol, LONG, quantity, fillPrice, fee, o.stopLoss, o.takeProfit);
        }
      } else {
        if held && IsLong(portfolio.positions[o.symbol].side) {
          refusal, pnl := portfolio.ClosePosition(o.symbol, Some(quantity), fillPrice, fee);
        } else {
          refusal := portfolio.OpenPosition(o.symbol, SHORT, quantity, fillPrice, fee, o.stopLoss, o.takeProfit);
        }
      }
    }

    /** The protective prices the order carries, set on the position it traded. */
    method ApplyBracket(o: Order)
      requires Valid()
      modifies portfolio, portfolio.Repr
      ensures Valid() && portfolio.Repr == old(portfolio.Repr)
      ensures portfolio.model == WithBracket(old(portfolio.model), o)
    {
      if o.symbol in portfolio.positions {
        var pos := portfolio.positions[o.symbol];
        portfolio.SetBracket(o.symbol, if o.stopLoss.Some? then o.stopLoss else pos.stop,
                             if o.takeProfit.Some? then o.takeProfit else pos.target);
      }
    }

    /** Price, quantity and fee of the fill an order would get now. */
    method PriceFill(id: OrderId, price: real, limitFill: bool) returns (f: Fill)
      requires id in orders
      ensures f == NextFill(venue, Value(), id, price, limitFill)
    {
      var o := orders[id];
      var fillPrice := venue.slippage.FillPrice(o.side, price, o.asset == PREDICTION, Remaining(o));
      if limitFill && o.limit.Some? {
        fillPrice := o.limit.value;
      }
      var quantity := Remaining(o);
      if health.failure == PartialFill && quantity > 0.0 {
        quantity := quantity / 2.0;
      }
      f := Fill(id, o.symbol, o.side, quantity, fillPrice, Abs(fillPrice - price),
                FillFee(venue, o, quantity, fillPrice, limitFill));
    }

    method FillMarketOrder(id: OrderId, price: real, limitFill: bool) returns (raised: bool)
      requires Valid() && id in orders
      modifies this, portfolio, portfolio.Repr
      ensures Valid() && fresh(portfolio.Repr - old(portfolio.Repr))
      ensures Outcome(Value(), raised) == FillMarket(venue, old(Value()), id, price, limitFill)
    {
      var f := PriceFill(id, price, limitFill);
      raised := Settle(id, f);
    }

    /** A fill tried against the portfolio, then written to the log and its order, or refused. */
    method Settle(id: OrderId, f: Fill) returns (raised: bool)
      requires Valid() && id in orders
      modifies this, portfolio, portfolio.Repr
      ensures Valid() && fresh(portfolio.Repr - old(portfolio.Repr))
      ensures Outcome(Value(), raised) == Settled(old(Value()), id, f)
    {
      var o := orders[id];
      var refusal := Trade(o, f.quantity, f.price, f.fee);
      if refusal.Some? {
        var status := RefusedStatus(o.status);
        if status.None? {
          return true;
        }
        orders := orders[id := o.(status := status.value, reason := RefusalText(refusal.value))];
        return false;
      }
      fills := fills + [f];
      var filled := FilledOrder(o, f);
      var status := if filled.filled + DUST >= filled.quantity then FILLED else PARTIALLY_FILLED;
      if !MayBecome(o.status, status) {
        orders := orders[id := filled];
        return true;
      }
      orders := orders[id := filled.(status := status)];
      ApplyBracket(o);
      raised := false;
    }

    // ----- order intake -----

    method SetMarketPrice(symbol: string, price: real)
      modifies `prices, `stale
      ensures Value() == Priced(old(Value()), symbol, price)
    {
      prices := prices[symbol := price];
      stale := stale - {symbol};
    }

    method RecordApiFailure()
      modifies `health
      ensures Value() == ApiFailed(venue, old(Value()))
    {
      health := health.(apiFailures := health.apiFailures + 1);
      if health.apiFailures >= venue.maxFailures {
        health := health.(halted := true, reason := "API_FAILURE_CIRCUIT_BREAKER");
      }
    }

    method Store(o: Order)
      requires o.id.Some?
      modifies `orders, `book
      ensures Value() == Stored(old(Value()), o)
    {
      if o.id.value !in orders {
        book := book + [o.id.value];
      }
      orders := orders[o.id.value := o];
    }

    /** The checks of an arriving order, first failure first. */
    method CheckIntake(o: Order, market: Option<real>) returns (refusal: Option<string>)
      ensures refusal == IntakeRefusal(venue, Value(), o, market)
    {
      if o.clientId != "" && o.clientId in clients {
        return Some("DUPLICATE_ORDER");
      }
      if health.halted {
        return Some(if health.reason != "" then health.reason else "TRADING_HALTED");
      }
      if IsTransport(health.failure) {
        return Some(FailureText(health.failure));
      }
      if health.failure == RejectedOrder {
        return Some("SIMULATED_REJECT");
      }
      if o.quantity <= 0.0 {
        return Some("BAD_QUANTITY");
      }
      if o.symbol !in venue.instruments && !IsPrediction(o.symbol) && Blank(o.symbol) {
        return Some("INVALID_INSTRUMENT");
      }
      var px := if market.Some? then market else if o.symbol in prices then Some(prices[o.symbol]) else None;
      if px.None? {
        return Some("NO_MARKET_PRICE");
      }
      if px.value <= 0.0 {
        return Some("BAD_PRICE");
      }
      if o.symbol in stale || health.failure == StaleMarketData {
        return Some("STALE_MARKET_DATA");
      }
      refusal := None;
    }

    method Admit(o: Order) returns (order: Order)
      modifies `orderSeq, `clients
      ensures (Value(), order) == Admitted(old(Value()), o)
    {
      orderSeq := orderSeq + 1;
      order := o.(id := if o.id.Some? then o.id else Some(Generated(orderSeq)));
      if o.clientId != "" {
        clients := clients + {o.clientId};
      }
    }

    /** The order as it stands afterwards is the table's entry under its id, unless the submit
        transition raised. */
    method SubmitOrder(o: Order, market: Option<real>) returns (raised: bool)
      requires Valid()
      modifies this, portfolio, portfolio.Repr
      ensures Valid() && fresh(portfolio.Repr - old(portfolio.Repr))
      ensures Outcome(Value(), raised) == CreateOrder(venue, old(Value()), o, market)
    {
      var refusal := CheckIntake(o, market);
      if refusal.Some? {
        TurnAway(o, refusal.value);
        return false;
      }
      if !MayBecome(o.status, SUBMITTED) {
        var order := Admit(o);
        return true;
      }
      raised := Accept(o, if market.Some? then market.value else prices[o.symbol]);
    }

    /** The submission of an order that passed every check, and the fill it may get at once. */
    method Accept(o: Order, price: real) returns (raised: bool)
      requires Valid()
      modifies this, portfolio, portfolio.Repr
      ensures Valid() && fresh(portfolio.Repr - old(portfolio.Repr))
      ensures Outcome(Value(), raised) == Accepted(venue, old(Value()), o, price)
    {
      var order := Admit(o);
      Store(Submitted(venue, order, price));
      if o.kind == MARKET {
        raised := FillMarketOrder(order.id.value, price, false);
      } else if o.kind == LIMIT && LimitTriggered(o, price) {
        raised := FillMarketOrder(order.id.value, LimitOr(o, price), true);
      } else {
        raised := false;
      }
    }

    method TurnAway(o: Order, reason: string)
      requires Valid()
      modifies this
      ensures Valid() && Value() == TurnedAway(venue, old(Value()), o, reason)
    {
      var record := !(o.clientId != "" && o.clientId in clients) && !health.halted && IsTransport(health.failure);
      var order := Admit(o);
      Store(order.(status := REJECTED, reason := reason));
      if record {
        RecordApiFailure();
      }
    }

    method Cancel(id: OrderId) returns (raised: bool)
      modifies `orders
      ensures Outcome(Value(), raised) == CancelOrder(old(Value()), id)
    {
      if id !in orders {
        return true;
      }
      if !Terminal(orders[id].status) {
        orders := orders[id := orders[id].(status := CANCELLED)];
      }
      raised := false;
    }

    method Expire(id: OrderId) returns (raised: bool)
      modifies `orders
      ensures Outcome(Value(), raised) == ExpireOrder(old(Value()), id)
    {
      if id !in orders {
        return true;
      }
      var status := orders[id].status;
      if status == FILLED || status == CANCELLED || status == REJECTED {
        return false;
      }
      if !MayBecome(status, EXPIRED) {
        return true;
      }
      orders := orders[id := orders[id].(status := EXPIRED)];
      raised := false;
    }

    method ListOpen(symbol: Option<string>) returns (ids: seq<OrderId>)
      ensures ids == OpenIds(orders, book, symbol)
    {
      ids := [];
      for i := 0 to |book|
        invariant ids == OpenIds(orders, book[..i], symbol)
      {
        assert book[..i + 1][..i] == book[..i];
        var id := book[i];
        if id in orders && IsOpen(orders[id].status) && Asks(symbol, orders[id]) {
          ids := ids + [id];
        }
      }
      assert book[..|book|] == book;
    }

    // ----- position management -----

    method CloseOut(symbol: string, quantity: Option<real>, price: real) returns (raised: bool)
      requires Valid() && symbol in portfolio.positions
      modifies `exitFees, portfolio, portfolio.Repr
      ensures Valid() && portfolio.Repr == old(portfolio.Repr)
      ensures Outcome(Value(), raised) == ClosedOut(venue, old(Value()), symbol, quantity, price)
    {
      var q := if quantity.None? then portfolio.positions[symbol].quantity else quantity.value;
      var fee := ExitFee(venue, symbol, q, price);
      var refusal, pnl := portfolio.ClosePosition(symbol, quantity, price, fee);
      if refusal.Some? {
        return true;
      }
      exitFees := exitFees + fee;
      raised := false;
    }

    method Exit(symbol: string, price: real) returns (raised: bool)
      requires Valid()
      modifies `exitFees, portfolio, portfolio.Repr
      ensures Valid() && portfolio.Repr == old(portfolio.Repr)
      ensures Outcome(Value(), raised) == ExitPosition(venue, old(Value()), symbol, price)
    {
      if symbol !in portfolio.positions {
        return false;
      }
      raised := CloseOut(symbol, None, price);
    }

    method MoveToBreakEven(symbol: string, price: real)
      requires Valid() && symbol in portfolio.positions
      modifies portfolio, portfolio.Repr
      ensures Valid() && portfolio.Repr == old(portfolio.Repr)
      ensures Value() == MovedToBreakEven(old(Value()), symbol, price)
    {
      var h := portfolio.positions[symbol].Value();
      var armed := symbol in breakEven && breakEven[symbol];
      portfolio.SetBracket(symbol, BreakEvenStop(h, armed, price), h.target);
    }

    method TakePartial(symbol: string, risk: Option<real>, price: real) returns (raised: bool)
      requires Valid() && symbol in portfolio.positions
      modifies `exitFees, `partials, portfolio, portfolio.Repr
      ensures Valid() && portfolio.Repr == old(portfolio.Repr)
      ensures Outcome(Value(), raised) == PartialExited(venue, old(Value()), symbol, risk, price)
    {
      var h := portfolio.positions[symbol].Value();
      if symbol !in partials || risk.None? || partials[symbol].done
         || !OneRReached(h, risk.value, price) || !(partials[symbol].percent / 100.0 > 0.0) {
        return false;
      }
      raised := CloseOut(symbol, Some(PartialQuantity(h, partials[symbol])), price);
      if !raised {
        partials := partials[symbol := partials[symbol].(done := true)];
      }
    }

    method Trail(symbol: string, price: real)
      requires Valid() && symbol in portfolio.positions
      modifies portfolio, portfolio.Repr
      ensures Valid() && portfolio.Repr == old(portfolio.Repr)
      ensures var h := old(portfolio.model).positions[symbol];
              portfolio.model == Bracketed(old(portfolio.model), symbol,
                Trailed(trailing.rules, symbol, IsLong(h.side), price, h.stop), h.target)
    {
      var pos := portfolio.positions[symbol];
      var stop := trailing.Update(symbol, IsLong(pos.side), price, pos.stop);
      portfolio.SetBracket(symbol, stop, pos.target);
    }

    method Protect(symbol: string, price: real) returns (raised: bool)
      requires Valid()
      modifies `exitFees, portfolio, portfolio.Repr
      ensures Valid() && portfolio.Repr == old(portfolio.Repr)
      ensures Outcome(Value(), raised) == Protected(venue, old(Value()), symbol, price)
    {
      if symbol !in portfolio.positions {
        return false;
      }
      var h := portfolio.positions[symbol].Value();
      if StopHit(h, price) || TargetHit(h, price) {
        raised := Exit(symbol, price);
        return;
      }
      Trail(symbol, price);
      raised := false;
      if symbol in meanReversion
         && (if IsLong(h.side) then price <= meanReversion[symbol]
             else IsShort(h.side) && price >= meanReversion[symbol]) {
        raised := Exit(symbol, price);
      }
    }

    method Manage(symbol: string, price: real) returns (raised: bool)
      requires Valid()
      modifies `exitFees, `partials, portfolio, portfolio.Repr
      ensures Valid() && portfolio.Repr == old(portfolio.Repr)
      ensures Outcome(Value(), raised) == ManagePosition(venue, old(Value()), symbol, price)
    {
      if symbol !in portfolio.positions {
        return false;
      }
      var risk := RiskOf(portfolio.positions[symbol].Value());
      var marked := portfolio.MarkEntry(symbol, price);
      MoveToBreakEven(symbol, price);
      raised := TakePartial(symbol, risk, price);
      if !raised {
        raised := Protect(symbol, price);
      }
    }

    // ----- a price arrives -----

    method TryTriggered(id: OrderId, price: real) returns (raised: bool)
      requires Valid() && id in orders
      modifies this, portfolio, portfolio.Repr
      ensures Valid() && fresh(portfolio.Repr - old(portfolio.Repr))
      ensures Outcome(Value(), raised) == FillTriggered(venue, old(Value()), id, price)
    {
      var o := orders[id];
      raised := false;
      if Triggered(o, price) {
        if o.kind == LIMIT {
          raised := FillMarketOrder(id, LimitOr(o, price), true);
        } else if o.kind == STOP_LIMIT {
          raised := FillMarketOrder(id, LimitOr(o, price), false);
        } else {
          raised := FillMarketOrder(id, price, false);
        }
      }
    }

    /** The matching loop, over the orders that were open when it began. */
    method Match(ids: seq<OrderId>, price: real) returns (raised: bool)
      requires Valid() && forall id :: id in ids ==> id in orders
      modifies this, portfolio, portfolio.Repr
      ensures Valid() && fresh(portfolio.Repr - old(portfolio.Repr))
      ensures Outcome(Value(), raised) == MatchOrders(venue, old(Value()), ids, price)
    {
      raised := false;
      for i := 0 to |ids|
        invariant Valid() && fresh(portfolio.Repr - old(portfolio.Repr)) && !raised
        invariant Outcome(Value(), false) == MatchOrders(venue, old(Value()), ids[..i], price)
      {
        assert ids[..i + 1][..i] == ids[..i];
        raised := TryTriggered(ids[i], price);
        if raised {
          RaisedMatchStops(venue, old(Value()), ids, price, i + 1);
          return;
        }
      }
      assert ids[..|ids|] == ids;
    }

    method OnPriceUpdate(symbol: string, price: real) returns (raised: bool)
      requires Valid()
      modifies this, portfolio, portfolio.Repr
      ensures Valid() && fresh(portfolio.Repr - old(portfolio.Repr))
      ensures Outcome(Value(), raised) == PriceUpdate(venue, old(Value()), symbol, price)
    {
      SetMarketPrice(symbol, price);
      var ids := ListOpen(Some(symbol));
      raised := Match(ids, price);
      if !raised {
        raised := Manage(symbol, price);
      }
    }

    // ----- day end -----

    method CancelAllOpen(ids: seq<OrderId>)
      modifies `orders
      ensures Value() == CancelAll(old(Value()), ids)
    {
      for i := 0 to |ids|
        invariant Value() == CancelAll(old(Value()), ids[..i])
      {
        assert ids[..i + 1][..i] == ids[..i];
        var raised := Cancel(ids[i]);
      }
      assert ids[..|ids|] == ids;
    }

    /** The held symbols in some order; the program's is the order they were opened in. */
    method ListHeld() returns (listing: seq<string>)
      ensures forall symbol :: symbol in listing <==> symbol in portfolio.positions
    {
      listing := [];
      var todo := portfolio.positions.Keys;
      while todo != {}
        invariant todo <= portfolio.positions.Keys
        invariant forall symbol :: symbol in listing <==> symbol in portfolio.positions && symbol !in todo
      {
        var symbol :| symbol in todo;
        listing := listing + [symbol];
        todo := todo - {symbol};
      }
    }

    method FlattenAll(listing: seq<string>) returns (raised: bool)
      requires Valid()
      modifies `exitFees, portfolio, portfolio.Repr
      ensures Valid() && portfolio.Repr == old(portfolio.Repr)
      ensures Outcome(Value(), raised) == Flattened(venue, old(Value()), listing)
    {
      raised := false;
      for i := 0 to |listing|
        invariant Valid() && portfolio.Repr == old(portfolio.Repr) && !raised
        invariant Outcome(Value(), false) == Flattened(venue, old(Value()), listing[..i])
      {
        assert listing[..i + 1][..i] == listing[..i];
        var symbol := listing[i];
        if symbol in portfolio.positions {
          raised := Exit(symbol, if symbol in prices then prices[symbol] else portfolio.positions[symbol].price);
          if raised {
            RaisedFlattenStops(venue, old(Value()), listing, i + 1);
            return;
          }
        }
      }
      assert listing[..|listing|] == listing;
    }

    method CloseDay() returns (raised: bool, listing: seq<string>)
      requires Valid()
      modifies this, portfolio, portfolio.Repr
      ensures Valid() && portfolio.Repr == old(portfolio.Repr)
      ensures forall symbol :: symbol in listing <==> symbol in old(portfolio.positions)
      ensures Outcome(Value(), raised) == EndOfDay(venue, old(Value()), listing)
    {
      var ids := ListOpen(None);
      CancelAllOpen(ids);
      listing := ListHeld();
      raised := false;
      if venue.flattenAtEod {
        raised := FlattenAll(listing);
        if raised {
          return;
        }
      }
      var snap := portfolio.TakeSnapshot(prices);
      portfolio.ResetTradingDay();
    }

    // ----- rules, failures, halts -----

    method ConfigureRules(symbol: string, r: Rules)
      requires Valid()
      modifies this, trailing
      ensures Valid() && Value() == Setting(venue, old(Value()), Command.Configure(symbol, r))
    {
      breakEven := breakEven[symbol := r.breakEven];
      if r.partialPercent.Some? {
        partials := partials[symbol := PartialExit(r.partialPercent.value, false)];
      }
      if r.trailing.Some? {
        trailing.Configure(symbol, r.trailing.value);
      }
      if r.meanReversion.Some? {
        meanReversion := meanReversion[symbol := r.meanReversion.value];
      }
    }

    method SimulateFailure(mode: FailureMode)
      modifies `health
      ensures Value() == Setting(venue, old(Value()), Simulate(mode))
    {
      health := health.(failure := mode);
      if IsTransport(mode) || mode == StaleMarketData {
        RecordApiFailure();
      }
    }

    method HaltTrading(reason: string)
      modifies `health
      ensures Value() == Setting(venue, old(Value()), Halt(reason))
    {
      health := health.(halted := true, reason := reason);
    }

    method ResetTradingHalt()
      modifies `health
      ensures Value() == Setting(venue, old(Value()), ResetHalt)
    {
      health := Health(false, "", 0, NoFailure);
    }
  }

  lemma {:induction false} RaisedFlattenStops(v: Venue, s: State, listing: seq<string>, i: nat)
    requires i <= |listing| && Flattened(v, s, listing[..i]).raised
    ensures Flattened(v, s, listing) == Flattened(v, s, listing[..i])
    decreases |listing|
  {
    if i == |listing| {
      assert listing[..i] == listing;
    } else {
      assert listing[..|listing| - 1][..i] == listing[..i];
      RaisedFlattenStops(v, s, listing[..|listing| - 1], i);
    }
  }

  /** Once the matching loop has raised, the orders after that make no difference. */
  lemma {:induction false} RaisedMatchStops(v: Venue, s: State, ids: seq<OrderId>, price: real, i: nat)
    requires i <= |ids| && forall id :: id in ids ==> id in s.orders
    requires MatchOrders(v, s, ids[..i], price).raised
    ensures MatchOrders(v, s, ids, price) == MatchOrders(v, s, ids[..i], price)
    decreases |ids|
  {
    if i == |ids| {
      assert ids[..i] == ids;
    } else {
      assert ids[..|ids| - 1][..i] == ids[..i];
      RaisedMatchStops(v, s, ids[..|ids| - 1], price, i);
    }
  }
}
