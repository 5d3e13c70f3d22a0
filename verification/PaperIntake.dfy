/** What gets an order onto the book: a halted exchange takes none, and one that takes an order has
    found it sound. */
module PaperIntake {
  import opened Prelude
  import opened Costs
  import opened Orders
  import opened PaperExchange
  import Ledger = PaperLedger

  // ----- halted -----

  /** Only a reset of the halt lifts it. */
  lemma HaltHolds(v: Venue, s: State, c: Command)
    requires s.health.halted && !c.ResetHalt?
    ensures Step(v, s, c).state.health.halted
  {
    match c
    case Create(o, market) => CreateKeepsHalt(v, s, o, market);
    case Price(symbol, price) => PriceKeepsHealth(v, s, symbol, price);
    case DayEnd(listing) => DayEndKeepsHealth(v, s, listing);
    case _ =>
  }

  lemma SettledKeepsHealth(s: State, id: OrderId, f: Fill)
    requires id in s.orders
    ensures Settled(s, id, f).state.health == s.health
  {
  }

  lemma CreateKeepsHalt(v: Venue, s: State, o: Order, market: Option<real>)
    requires s.health.halted
    ensures CreateOrder(v, s, o, market).state.health.halted
  {
    assert IntakeRefusal(v, s, o, market).Some?;
  }

  lemma AcceptedKeepsHealth(v: Venue, s: State, o: Order, price: real)
    ensures Accepted(v, s, o, price).state.health == s.health
  {
    var kept, id := Arrived(v, s, o, price), Admitted(s, o).1.id.value;
    SettledKeepsHealth(kept, id, NextFill(v, kept, id, price, false));
    SettledKeepsHealth(kept, id, NextFill(v, kept, id, LimitOr(o, price), true));
  }

  lemma TriggeredKeepsHealth(v: Venue, s: State, id: OrderId, price: real)
    requires id in s.orders
    ensures FillTriggered(v, s, id, price).state.health == s.health
  {
  }

  lemma {:induction false} MatchKeepsHealth(v: Venue, s: State, ids: seq<OrderId>, price: real)
    requires forall id :: id in ids ==> id in s.orders
    ensures MatchOrders(v, s, ids, price).state.health == s.health
  {
    if ids != [] {
      MatchKeepsHealth(v, s, ids[..|ids| - 1], price);
      TriggeredKeepsHealth(v, MatchOrders(v, s, ids[..|ids| - 1], price).state, ids[|ids| - 1], price);
    }
  }

  lemma ManageKeepsHealth(v: Venue, s: State, symbol: string, price: real)
    ensures ManagePosition(v, s, symbol, price).state.health == s.health
  {
  }

  lemma PriceKeepsHealth(v: Venue, s: State, symbol: string, price: real)
    ensures PriceUpdate(v, s, symbol, price).state.health == s.health
  {
    var priced, ids := Priced(s, symbol, price), OpenIds(s.orders, s.book, Some(symbol));
    MatchKeepsHealth(v, priced, ids, price);
    ManageKeepsHealth(v, MatchOrders(v, priced, ids, price).state, symbol, price);
  }

  lemma {:induction false} CancelAllKeepsHealth(s: State, ids: seq<OrderId>)
    ensures CancelAll(s, ids).health == s.health
  {
    if ids != [] {
      CancelAllKeepsHealth(s, ids[..|ids| - 1]);
    }
  }

  lemma {:induction false} FlattenedKeepsHealth(v: Venue, s: State, symbols: seq<string>)
    ensures Flattened(v, s, symbols).state.health == s.health
  {
    if symbols != [] {
      FlattenedKeepsHealth(v, s, symbols[..|symbols| - 1]);
    }
  }

  lemma DayEndKeepsHealth(v: Venue, s: State, symbols: seq<string>)
    ensures EndOfDay(v, s, symbols).state.health == s.health
  {
    CancelAllKeepsHealth(s, OpenIds(s.orders, s.book, None));
    FlattenedKeepsHealth(v, CancelAll(s, OpenIds(s.orders, s.book, None)), symbols);
  }

  lemma {:induction false} HaltHoldsOver(v: Venue, s: State, commands: seq<Command>)
    requires s.health.halted && forall c :: c in commands ==> !c.ResetHalt?
    ensures Run(v, s, commands).health.halted
  {
    if commands != [] {
      var n := |commands| - 1;
      assert commands[n] in commands;
      HaltHoldsOver(v, s, commands[..n]);
      HaltHolds(v, Run(v, s, commands[..n]), commands[n]);
    }
  }

  /** The order is filed as rejected, and neither money nor the log has moved. */
  ghost predicate Rejected(v: Venue, s: State, o: Order, market: Option<real>, reason: string) {
    var t, id := CreateOrder(v, s, o, market).state, Admitted(s, o).1.id.value;
    && t.account == s.account && t.fills == s.fills && id in t.orders
    && t.orders[id].status == REJECTED && t.orders[id].reason == reason
  }

  lemma HaltedRejects(v: Venue, s: State, o: Order, market: Option<real>)
    requires s.health.halted
    ensures Rejected(v, s, o, market,
                     if o.clientId != "" && o.clientId in s.clients then "DUPLICATE_ORDER"
                     else if s.health.reason == "" then "TRADING_HALTED" else s.health.reason)
  {
    var (t, order) := Admitted(s, o);
    Ledger.ApiFailedSame(v, Stored(t, order.(status := REJECTED, reason := IntakeRefusal(v, s, o, market).value)));
  }

  /** From a halt on, through any commands but the reset, every order is filed as rejected, under
      the reason of the halt or as a duplicate, and moves neither money nor the log. */
  lemma HaltedTakesNoOrder(v: Venue, s: State, commands: seq<Command>, o: Order, market: Option<real>)
    requires s.health.halted && forall c :: c in commands ==> !c.ResetHalt?
    ensures var t := Run(v, s, commands);
            t.health.halted
            && Rejected(v, t, o, market,
                        if o.clientId != "" && o.clientId in t.clients then "DUPLICATE_ORDER"
                        else if t.health.reason == "" then "TRADING_HALTED" else t.health.reason)
  {
    HaltHoldsOver(v, s, commands);
    HaltedRejects(v, Run(v, s, commands), o, market);
  }

  /** Commands that neither submit anything nor touch the switches. */
  predicate Calm(c: Command) { c.Price? || c.SetPrice? || c.Cancel? || c.TakeSnapshot? }

  /** Halting does halt: every order that comes after it is rejected for its reason. */
  lemma HaltHalts(v: Venue, s: State, reason: string, commands: seq<Command>, o: Order, market: Option<real>)
    requires (forall c :: c in commands ==> Calm(c)) && reason != "" && o.clientId == ""
    ensures Rejected(v, Run(v, Step(v, s, Halt(reason)).state, commands), o, market, reason)
  {
    var halted := Step(v, s, Halt(reason)).state;
    CalmKeepsHealth(v, halted, commands);
    HaltedRejects(v, Run(v, halted, commands), o, market);
  }

  lemma {:induction false} CalmKeepsHealth(v: Venue, s: State, commands: seq<Command>)
    requires forall c :: c in commands ==> Calm(c)
    ensures Run(v, s, commands).health == s.health
  {
    if commands != [] {
      var n := |commands| - 1;
      var t, c := Run(v, s, commands[..n]), commands[n];
      assert c in commands;
      CalmKeepsHealth(v, s, commands[..n]);
      if c.Price? {
        PriceKeepsHealth(v, t, c.symbol, c.price);
      }
    }
  }

  // ----- what is taken is sound -----

  /** A price to check the order against: the one that comes with it, or else the last of its
      symbol. */
  predicate PricedAt(s: State, o: Order, market: Option<real>, price: real) {
    if market.Some? then price == market.value else o.symbol in s.feed.prices && price == s.feed.prices[o.symbol]
  }

  /** What the exchange asks of an order: trading is on, the client id is new, the quantity and the
      price are positive, the symbol is one and its price is not stale, and no failure that turns
      orders away is simulated. */
  predicate Acceptable(v: Venue, s: State, o: Order, market: Option<real>, price: real) {
    && !s.health.halted && s.health.failure in {NoFailure, PartialFill, OtherFailure}
    && (o.clientId == "" || o.clientId !in s.clients)
    && 0.0 < o.quantity && PricedAt(s, o, market, price) && 0.0 < price
    && o.symbol !in s.feed.stale
    && (o.symbol in v.instruments || "PREDICT/" <= o.symbol || exists i :: 0 <= i < |o.symbol| && !IsSpace(o.symbol[i]))
  }

  lemma RefusedIff(v: Venue, s: State, o: Order, market: Option<real>)
    ensures IntakeRefusal(v, s, o, market).None? <==> exists price :: Acceptable(v, s, o, market, price)
    ensures IntakeRefusal(v, s, o, market).None? ==>
      Acceptable(v, s, o, market, QuotedPrice(s, o, market).value)
  {
    if IntakeRefusal(v, s, o, market).None? {
      assert Acceptable(v, s, o, market, QuotedPrice(s, o, market).value);
    }
  }

  /** An order that is not acceptable at any price is filed as rejected and moves nothing. */
  lemma UnacceptableIsRejected(v: Venue, s: State, o: Order, market: Option<real>)
    requires !exists price :: Acceptable(v, s, o, market, price)
    ensures exists reason :: Rejected(v, s, o, market, reason)
  {
    RefusedIff(v, s, o, market);
    var (t, order) := Admitted(s, o);
    var reason := IntakeRefusal(v, s, o, market).value;
    Ledger.ApiFailedSame(v, Stored(t, order.(status := REJECTED, reason := reason)));
    assert Rejected(v, s, o, market, reason);
  }

  /** The kinds that are tried at once: market orders, and limits the price already meets. */
  predicate TriedAtOnce(o: Order, price: real) {
    o.kind == MARKET
    || (o.kind == LIMIT && o.limit.Some?
        && if o.side in {Side.BUY, BUY_YES, BUY_NO} then price <= o.limit.value else price >= o.limit.value)
  }

  /** An acceptable order that has not gone further than its submission is filed under the price it
      was checked against. One that is not tried at once rests; one that is has a fill in the log, or
      is rejected by the portfolio with nothing logged. */
  lemma AcceptableIsTaken(v: Venue, s: State, o: Order, market: Option<real>, price: real)
    requires Acceptable(v, s, o, market, price) && o.status in {CREATED, VALIDATED, SUBMITTED}
    ensures var t, id := CreateOrder(v, s, o, market).state, Admitted(s, o).1.id.value;
            && id in t.orders && t.orders[id].requested == Some(price) && !CreateOrder(v, s, o, market).raised
            && (!TriedAtOnce(o, price) ==>
                  t.orders[id].status == SUBMITTED && t.account == s.account && t.fills == s.fills)
            && (TriedAtOnce(o, price) ==>
                  if t.orders[id].status == REJECTED then t.fills == s.fills
                  else t.orders[id].status in {FILLED, PARTIALLY_FILLED} && |t.fills| == |s.fills| + 1)
  {
    RefusedIff(v, s, o, market);
    AcceptedOutcome(v, s, o, price);
  }

  lemma AcceptedOutcome(v: Venue, s: State, o: Order, price: real)
    ensures var r, id := Accepted(v, s, o, price), Admitted(s, o).1.id.value;
            var t := r.state;
            && id in t.orders && t.orders[id].requested == Some(price) && !r.raised
            && (!TriedAtOnce(o, price) ==>
                  t.orders[id].status == SUBMITTED && t.account == s.account && t.fills == s.fills)
            && (TriedAtOnce(o, price) ==>
                  if t.orders[id].status == REJECTED then t.fills == s.fills
                  else t.orders[id].status in {FILLED, PARTIALLY_FILLED} && |t.fills| == |s.fills| + 1)
  {
    var kept, id := Arrived(v, s, o, price), Admitted(s, o).1.id.value;
    SubmittedOutcome(kept, id, NextFill(v, kept, id, price, false));
    SubmittedOutcome(kept, id, NextFill(v, kept, id, LimitOr(o, price), true));
  }

  /** A fill attempt on a submitted order does not raise: it rejects the order or logs the fill. */
  lemma SubmittedOutcome(s: State, id: OrderId, f: Fill)
    requires id in s.orders && s.orders[id].status == SUBMITTED
    ensures var r := Settled(s, id, f);
            && !r.raised && r.state.orders[id].requested == s.orders[id].requested
            && if r.state.orders[id].status == REJECTED then r.state.fills == s.fills
               else r.state.orders[id].status in {FILLED, PARTIALLY_FILLED} && r.state.fills == s.fills + [f]
  {
  }

  /** So whatever was taken, resting or filled, was acceptable. */
  lemma TakenIsAcceptable(v: Venue, s: State, o: Order, market: Option<real>)
    requires var t, id := CreateOrder(v, s, o, market).state, Admitted(s, o).1.id.value;
             t.fills != s.fills || t.account != s.account || (id in t.orders && t.orders[id].status != REJECTED)
    ensures exists price :: Acceptable(v, s, o, market, price)
  {
    if !exists price :: Acceptable(v, s, o, market, price) {
      UnacceptableIsRejected(v, s, o, market);
    }
  }

  // ----- the circuit breaker -----

  /** Failures at the configured number have halted the exchange. */
  predicate BreakerHolds(v: Venue, s: State) {
    0 < s.health.apiFailures && v.maxFailures <= s.health.apiFailures ==> s.health.halted
  }

  lemma StepKeepsBreaker(v: Venue, s: State, c: Command)
    requires BreakerHolds(v, s)
    ensures BreakerHolds(v, Step(v, s, c).state)
  {
    match c
    case Create(o, market) =>
      if IntakeRefusal(v, s, o, market).None? && MayBecome(o.status, SUBMITTED) {
        AcceptedKeepsHealth(v, s, o, QuotedPrice(s, o, market).value);
      }
    case Price(symbol, price) => PriceKeepsHealth(v, s, symbol, price);
    case DayEnd(listing) => DayEndKeepsHealth(v, s, listing);
    case _ =>
  }

  /** Over every run the breaker has tripped once failures reach its number. */
  lemma {:induction false} BreakerTrips(v: Venue, startingCash: real, commands: seq<Command>)
    ensures BreakerHolds(v, Run(v, Opened(startingCash), commands))
  {
    if commands != [] {
      var n := |commands| - 1;
      BreakerTrips(v, startingCash, commands[..n]);
      StepKeepsBreaker(v, Run(v, Opened(startingCash), commands[..n]), commands[n]);
    }
  }

  /** And a failure is counted for exactly the orders that a transport failure turns away. */
  lemma FailuresAreCounted(v: Venue, s: State, o: Order, market: Option<real>)
    ensures CreateOrder(v, s, o, market).state.health.apiFailures
         == s.health.apiFailures
            + if !s.health.halted && (o.clientId == "" || o.clientId !in s.clients)
                 && s.health.failure in {Timeout, RateLimit, ConnectionError, ExchangeUnavailable} then 1 else 0
  {
    if IntakeRefusal(v, s, o, market).None? && MayBecome(o.status, SUBMITTED) {
      AcceptedKeepsHealth(v, s, o, QuotedPrice(s, o, market).value);
    }
  }

  // ----- prices and switches -----

  lemma SettledKeepsFeed(s: State, id: OrderId, f: Fill)
    requires id in s.orders
    ensures Settled(s, id, f).state.feed == s.feed
  {
  }

  lemma TriggeredKeepsFeed(v: Venue, s: State, id: OrderId, price: real)
    requires id in s.orders
    ensures FillTriggered(v, s, id, price).state.feed == s.feed
  {
    var o := s.orders[id];
    var at := if o.kind == LIMIT || o.kind == STOP_LIMIT then LimitOr(o, price) else price;
    SettledKeepsFeed(s, id, NextFill(v, s, id, at, o.kind == LIMIT));
  }

  lemma {:induction false} MatchKeepsFeed(v: Venue, s: State, ids: seq<OrderId>, price: real)
    requires forall id :: id in ids ==> id in s.orders
    ensures MatchOrders(v, s, ids, price).state.feed == s.feed
  {
    if ids != [] {
      MatchKeepsFeed(v, s, ids[..|ids| - 1], price);
      TriggeredKeepsFeed(v, MatchOrders(v, s, ids[..|ids| - 1], price).state, ids[|ids| - 1], price);
    }
  }

  lemma ManageKeepsFeed(v: Venue, s: State, symbol: string, price: real)
    ensures ManagePosition(v, s, symbol, price).state.feed == s.feed
  {
  }

  /** A price, updated or set, is the one that stands and lifts the staleness of its symbol; marking a
      symbol stale keeps its price. */
  lemma PricesStand(v: Venue, s: State, symbol: string, price: real)
    ensures var priced := Feed(s.feed.prices[symbol := price], s.feed.stale - {symbol});
            && Step(v, s, Price(symbol, price)).state.feed == priced
            && Step(v, s, SetPrice(symbol, price)).state == s.(feed := priced)
            && Step(v, s, MarkStale(symbol)).state == s.(feed := Feed(s.feed.prices, s.feed.stale + {symbol}))
  {
    var priced, ids := Priced(s, symbol, price), OpenIds(s.orders, s.book, Some(symbol));
    MatchKeepsFeed(v, priced, ids, price);
    ManageKeepsFeed(v, MatchOrders(v, priced, ids, price).state, symbol, price);
  }

  /** Clearing a failure forgets it and the count but lifts no halt; resetting the halt forgets all
      three. Simulating a failure counts it where it is one of transport or of data. */
  lemma SwitchesAre(v: Venue, s: State, f: FailureMode)
    ensures var cleared, reset := Step(v, s, ClearFailure).state, Step(v, s, ResetHalt).state;
            && cleared == s.(health := s.health.(failure := NoFailure, apiFailures := 0))
            && reset == s.(health := Health(false, "", 0, NoFailure))
    ensures var simulated := Step(v, s, Simulate(f)).state;
            var counts := f in {Timeout, RateLimit, ConnectionError, ExchangeUnavailable, StaleMarketData};
            && simulated == s.(health := simulated.health) && simulated.health.failure == f
            && simulated.health.apiFailures == s.health.apiFailures + (if counts then 1 else 0)
            && (simulated.health.halted <==> s.health.halted || (counts && v.maxFailures <= s.health.apiFailures + 1))
  {
  }
}
