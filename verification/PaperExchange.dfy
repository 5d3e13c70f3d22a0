/** The paper exchange as a state machine on values: order intake, matching of resting
    orders against a price, protective management of open positions, day end. */
module PaperExchange {
  import opened Prelude
  import opened Costs
  import opened Orders
  import opened Portfolio
  import opened Trailing

  datatype FailureMode =
    | NoFailure | Timeout | RateLimit | ConnectionError | ExchangeUnavailable
    | StaleMarketData | PartialFill | RejectedOrder | OtherFailure

  datatype PartialExit = PartialExit(percent: real, done: bool)

  /** Fixed configuration. */
  datatype Venue = Venue(
    fees: FeeSchedule, slippage: SlippageModel, instruments: map<string, AssetClass>,
    maxFailures: int, flattenAtEod: bool)

  datatype Feed = Feed(prices: map<string, real>, stale: set<string>)

  datatype Health = Health(halted: bool, reason: string, apiFailures: nat, failure: FailureMode)

  datatype RuleBook = RuleBook(
    breakEven: map<string, bool>, partials: map<string, PartialExit>,
    meanReversion: map<string, real>, trailing: map<string, TrailingRule>)

  /** `book` is the insertion order of the order table. `exitFees` is history: fees of
      protective exits and partial exits, which have no entry in the fill log. */
  datatype State = State(
    account: Account, orders: map<OrderId, Order>, book: seq<OrderId>, fills: seq<Fill>,
    orderSeq: nat, clients: set<string>, feed: Feed, health: Health, rules: RuleBook, exitFees: real)

  /** A state, and whether the operation that led there ended in an exception. */
  datatype Outcome = Outcome(state: State, raised: bool)

  const NAME := "paper"

  function Opened(startingCash: real): State {
    State(Fresh(startingCash), map[], [], [], 0, {}, Feed(map[], {}), Health(false, "", 0, NoFailure),
          RuleBook(map[], map[], map[], map[]), 0.0)
  }

  predicate IsPrediction(symbol: string) { "PREDICT/" <= symbol }

  function AssetOf(v: Venue, symbol: string): AssetClass {
    if symbol in v.instruments then v.instruments[symbol]
    else if IsPrediction(symbol) then PREDICTION
    else CRYPTO
  }

  // ----- filling -----

  function Remaining(o: Order): real { o.quantity - o.filled }

  function FillQuantity(s: State, o: Order): real {
    if s.health.failure == PartialFill && Remaining(o) > 0.0 then Remaining(o) / 2.0 else Remaining(o)
  }

  function FillPrice(v: Venue, o: Order, price: real, limitFill: bool): real {
    if limitFill && o.limit.Some? then o.limit.value
    else v.slippage.FillPrice(o.side, price, o.asset == PREDICTION, Remaining(o))
  }

  function FillFee(v: Venue, o: Order, quantity: real, fillPrice: real, limitFill: bool): real {
    v.fees.Fee(quantity * fillPrice, o.asset, if limitFill then Maker else Taker, Some(NAME))
  }

  /** A buy covers a short before it opens a long, and a sell the other way round. */
  function Traded(a: Account, o: Order, quantity: real, fillPrice: real, fee: real): (Account, Option<Refusal>) {
    if IsBuy(o.side) then
      if o.symbol in a.positions && IsShort(a.positions[o.symbol].side)
      then Close(a, o.symbol, Some(quantity), fillPrice, fee)
      else Open(a, o.symbol, LONG, quantity, fillPrice, fee, o.stopLoss, o.takeProfit)
    else
      if o.symbol in a.positions && IsLong(a.positions[o.symbol].side)
      then Close(a, o.symbol, Some(quantity), fillPrice, fee)
      else Open(a, o.symbol, SHORT, quantity, fillPrice, fee, o.stopLoss, o.takeProfit)
  }

  /** The protective prices an order carries replace those of the position it traded. */
  function WithBracket(a: Account, o: Order): Account {
    if o.symbol !in a.positions then a
    else
      var h := a.positions[o.symbol];
      Bracketed(a, o.symbol, if o.stopLoss.Some? then o.stopLoss else h.stop,
                if o.takeProfit.Some? then o.takeProfit else h.target)
  }

  function RefusalText(r: Refusal): string {
    match r
    case BadAmount => "quantity and price must be positive"
    case InsufficientCash => "Insufficient cash"
    case UnsupportedSide => "Unsupported side"
    case OppositeSide => "Close opposite position before opening reverse side"
    case DivisionByZero => "float division by zero"
    case NoPosition => "No position"
    case BadCloseQuantity => "Invalid close quantity"
  }

  /** A submitted order is rejected outside the transition table; any other status goes
      through it, which raises where the table has no way to REJECTED. */
  function RefusedStatus(status: Status): Option<Status> {
    if status == REJECTED || status == CANCELLED then Some(status)
    else if status == SUBMITTED || MayBecome(status, REJECTED) then Some(REJECTED)
    else None
  }

  function FilledOrder(o: Order, f: Fill): Order {
    o.(filled := o.filled + f.quantity, average := Some(f.price), fees := o.fees + f.fee, slippage := f.slippage)
  }

  /** Status an order should have for what is filled. */
  function FilledStatus(o: Order): Status {
    if o.filled + DUST >= o.quantity then FILLED else PARTIALLY_FILLED
  }

  /** A refused trade: the order is turned away, or the refusal surfaces. */
  function Refused(s: State, id: OrderId, account: Account, refusal: Refusal): (r: Outcome)
    requires id in s.orders
    ensures r.state.orders.Keys == s.orders.Keys
    ensures forall i :: i in s.orders && i != id ==> r.state.orders[i] == s.orders[i]
  {
    var o := s.orders[id];
    var status := RefusedStatus(o.status);
    if status.None? then Outcome(s.(account := account), true)
    else
      Outcome(s.(account := account,
                 orders := s.orders[id := o.(status := status.value, reason := RefusalText(refusal))]), false)
  }

  /** A trade that went through, written to the log and to its order. */
  function Recorded(s: State, id: OrderId, account: Account, f: Fill): (r: Outcome)
    requires id in s.orders
    ensures r.state.orders.Keys == s.orders.Keys
    ensures forall i :: i in s.orders && i != id ==> r.state.orders[i] == s.orders[i]
  {
    var o := s.orders[id];
    var filled := FilledOrder(o, f);
    var logged := s.(account := account, fills := s.fills + [f]);
    if !MayBecome(o.status, FilledStatus(filled)) then Outcome(logged.(orders := s.orders[id := filled]), true)
    else
      Outcome(logged.(account := WithBracket(account, o),
                      orders := s.orders[id := filled.(status := FilledStatus(filled))]), false)
  }

  /** The fill an order would get now. */
  function NextFill(v: Venue, s: State, id: OrderId, price: real, limitFill: bool): Fill
    requires id in s.orders
  {
    var o := s.orders[id];
    var fillPrice := FillPrice(v, o, price, limitFill);
    var quantity := FillQuantity(s, o);
    Fill(id, o.symbol, o.side, quantity, fillPrice, Abs(fillPrice - price),
         FillFee(v, o, quantity, fillPrice, limitFill))
  }

  /** The fill tried against the portfolio, and what becomes of it. */
  function Settled(s: State, id: OrderId, f: Fill): (r: Outcome)
    requires id in s.orders
    ensures r.state.orders.Keys == s.orders.Keys
    ensures forall i :: i in s.orders && i != id ==> r.state.orders[i] == s.orders[i]
  {
    var (account, refusal) := Traded(s.account, s.orders[id], f.quantity, f.price, f.fee);
    if refusal.Some? then Refused(s, id, account, refusal.value) else Recorded(s, id, account, f)
  }

  function FillMarket(v: Venue, s: State, id: OrderId, price: real, limitFill: bool): (r: Outcome)
    requires id in s.orders
    ensures r.state.orders.Keys == s.orders.Keys
    ensures forall i :: i in s.orders && i != id ==> r.state.orders[i] == s.orders[i]
  {
    Settled(s, id, NextFill(v, s, id, price, limitFill))
  }

  // ----- order intake -----

  function Stored(s: State, o: Order): State
    requires o.id.Some?
  {
    s.(orders := s.orders[o.id.value := o],
       book := if o.id.value in s.orders then s.book else s.book + [o.id.value])
  }

  function ApiFailed(v: Venue, s: State): State {
    var n := s.health.apiFailures + 1;
    s.(health := if n >= v.maxFailures
                 then s.health.(apiFailures := n, halted := true, reason := "API_FAILURE_CIRCUIT_BREAKER")
                 else s.health.(apiFailures := n))
  }

  function FailureText(f: FailureMode): string {
    match f
    case Timeout => "TIMEOUT"
    case RateLimit => "RATE_LIMIT"
    case ConnectionError => "CONNECTION_ERROR"
    case _ => "EXCHANGE_UNAVAILABLE"
  }

  predicate IsTransport(f: FailureMode) {
    f == Timeout || f == RateLimit || f == ConnectionError || f == ExchangeUnavailable
  }

  /** The price an order is checked against. */
  function QuotedPrice(s: State, o: Order, market: Option<real>): Option<real> {
    if market.Some? then market
    else if o.symbol in s.feed.prices then Some(s.feed.prices[o.symbol])
    else None
  }

  /** Why an order is turned away before it is submitted, in the order of the checks. */
  function IntakeRefusal(v: Venue, s: State, o: Order, market: Option<real>): Option<string> {
    var px := QuotedPrice(s, o, market);
    if o.clientId != "" && o.clientId in s.clients then Some("DUPLICATE_ORDER")
    else if s.health.halted then Some(if s.health.reason != "" then s.health.reason else "TRADING_HALTED")
    else if IsTransport(s.health.failure) then Some(FailureText(s.health.failure))
    else if s.health.failure == RejectedOrder then Some("SIMULATED_REJECT")
    else if o.quantity <= 0.0 then Some("BAD_QUANTITY")
    else if o.symbol !in v.instruments && !IsPrediction(o.symbol) && Blank(o.symbol) then Some("INVALID_INSTRUMENT")
    else if px.None? then Some("NO_MARKET_PRICE")
    else if px.value <= 0.0 then Some("BAD_PRICE")
    else if o.symbol in s.feed.stale || s.health.failure == StaleMarketData then Some("STALE_MARKET_DATA")
    else None
  }

  /** An API failure is recorded only for the transport failures that get past the first two checks. */
  predicate RecordsFailure(s: State, o: Order) {
    !(o.clientId != "" && o.clientId in s.clients) && !s.health.halted && IsTransport(s.health.failure)
  }

  /** The order with its id, and the state that has used up a sequence number and noted the client id. */
  function Admitted(s: State, o: Order): (State, Order) {
    (s.(orderSeq := s.orderSeq + 1,
        clients := if o.clientId != "" then s.clients + {o.clientId} else s.clients),
     o.(id := if o.id.Some? then o.id else Some(Generated(s.orderSeq + 1))))
  }

  function Submitted(v: Venue, o: Order, price: real): Order {
    o.(requested := Some(price), asset := AssetOf(v, o.symbol), status := SUBMITTED)
  }

  /** An order refused on arrival is kept, rejected. */
  function TurnedAway(v: Venue, s: State, o: Order, reason: string): State {
    var (t, order) := Admitted(s, o);
    var kept := Stored(t, order.(status := REJECTED, reason := reason));
    if RecordsFailure(s, o) then ApiFailed(v, kept) else kept
  }

  function Arrived(v: Venue, s: State, o: Order, price: real): State {
    var (t, order) := Admitted(s, o);
    Stored(t, Submitted(v, order, price))
  }

  /** An order that passed the checks: submitted, and tried at once if it is a market order or
      a limit order the price already meets. */
  function Accepted(v: Venue, s: State, o: Order, price: real): Outcome {
    var kept, id := Arrived(v, s, o, price), Admitted(s, o).1.id.value;
    if o.kind == MARKET then FillMarket(v, kept, id, price, false)
    else if o.kind == LIMIT && LimitTriggered(o, price) then FillMarket(v, kept, id, LimitOr(o, price), true)
    else Outcome(kept, false)
  }

  function CreateOrder(v: Venue, s: State, o: Order, market: Option<real>): Outcome {
    var refusal := IntakeRefusal(v, s, o, market);
    if refusal.Some? then Outcome(TurnedAway(v, s, o, refusal.value), false)
    else if !MayBecome(o.status, SUBMITTED) then Outcome(Admitted(s, o).0, true)
    else Accepted(v, s, o, QuotedPrice(s, o, market).value)
  }

  /** The order ends up in the table: turned away, or submitted without an exception. */
  predicate Lands(v: Venue, s: State, o: Order, market: Option<real>) {
    IntakeRefusal(v, s, o, market).Some? || MayBecome(o.status, SUBMITTED)
  }

  function WithStatus(s: State, id: OrderId, status: Status): State
    requires id in s.orders
  {
    s.(orders := s.orders[id := s.orders[id].(status := status)])
  }

  function CancelOrder(s: State, id: OrderId): Outcome {
    if id !in s.orders then Outcome(s, true)
    else if Terminal(s.orders[id].status) then Outcome(s, false)
    else Outcome(WithStatus(s, id, CANCELLED), false)
  }

  function ExpireOrder(s: State, id: OrderId): Outcome {
    if id !in s.orders then Outcome(s, true)
    else if s.orders[id].status == FILLED || s.orders[id].status == CANCELLED || s.orders[id].status == REJECTED then
      Outcome(s, false)
    else if !MayBecome(s.orders[id].status, EXPIRED) then Outcome(s, true)
    else Outcome(WithStatus(s, id, EXPIRED), false)
  }

  // ----- a price arrives -----

  /** No symbol, or an empty one, asks for the orders of every symbol. */
  predicate Asks(symbol: Option<string>, o: Order) {
    symbol.Some? && symbol.value != "" ==> o.symbol == symbol.value
  }

  /** Open orders of a symbol, or of all, in table order. */
  function OpenIds(orders: map<OrderId, Order>, book: seq<OrderId>, symbol: Option<string>): (ids: seq<OrderId>)
    ensures forall id :: id in ids <==>
      id in book && id in orders && IsOpen(orders[id].status) && Asks(symbol, orders[id])
  {
    if book == [] then []
    else
      var last := book[|book| - 1];
      var rest := OpenIds(orders, book[..|book| - 1], symbol);
      if last in orders && IsOpen(orders[last].status) && Asks(symbol, orders[last]) then rest + [last] else rest
  }

  function FillTriggered(v: Venue, s: State, id: OrderId, price: real): (r: Outcome)
    requires id in s.orders
    ensures r.state.orders.Keys == s.orders.Keys
    ensures forall i :: i in s.orders && i != id ==> r.state.orders[i] == s.orders[i]
  {
    var o := s.orders[id];
    if !Triggered(o, price) then Outcome(s, false)
    else if o.kind == LIMIT then FillMarket(v, s, id, LimitOr(o, price), true)
    else if o.kind == STOP_LIMIT then FillMarket(v, s, id, LimitOr(o, price), false)
    else FillMarket(v, s, id, price, false)
  }

  /** The matching loop over the ids listed before it starts; an exception ends it. */
  function MatchOrders(v: Venue, s: State, ids: seq<OrderId>, price: real): (r: Outcome)
    requires forall id :: id in ids ==> id in s.orders
    ensures r.state.orders.Keys == s.orders.Keys
  {
    if ids == [] then Outcome(s, false)
    else
      var before := MatchOrders(v, s, ids[..|ids| - 1], price);
      if before.raised then before else FillTriggered(v, before.state, ids[|ids| - 1], price)
  }

  function Priced(s: State, symbol: string, price: real): State {
    s.(feed := Feed(s.feed.prices[symbol := price], s.feed.stale - {symbol}))
  }

  function ExitFee(v: Venue, symbol: string, quantity: real, price: real): real {
    v.fees.Fee(quantity * price, AssetOf(v, symbol), Taker, None)
  }

  /** A close outside the order flow: the fee goes to no fill. */
  function ClosedOut(v: Venue, s: State, symbol: string, quantity: Option<real>, price: real): Outcome
    requires symbol in s.account.positions
  {
    var q := if quantity.None? then s.account.positions[symbol].quantity else quantity.value;
    var fee := ExitFee(v, symbol, q, price);
    var (account, refusal) := Close(s.account, symbol, quantity, price, fee);
    if refusal.Some? then Outcome(s, true)
    else Outcome(s.(account := account, exitFees := s.exitFees + fee), false)
  }

  function ExitPosition(v: Venue, s: State, symbol: string, price: real): Outcome {
    if symbol !in s.account.positions then Outcome(s, false) else ClosedOut(v, s, symbol, None, price)
  }

  /** Initial risk per unit, where there is any. */
  function RiskOf(h: Holding): Option<real> {
    if h.stop.Some? && h.average != h.stop.value then Some(Abs(h.average - h.stop.value)) else None
  }

  /** The price has moved one unit of risk in favour. */
  predicate OneRReached(h: Holding, risk: real, price: real) {
    if IsLong(h.side) then price >= h.average + risk else price <= h.average - risk
  }

  function BreakEvenStop(h: Holding, armed: bool, price: real): Option<real> {
    var risk := RiskOf(h);
    if risk.None? || !armed || !OneRReached(h, risk.value, price) then h.stop
    else if IsLong(h.side) && h.stop.value < h.average then Some(h.average)
    else if IsShort(h.side) && h.stop.value > h.average then Some(h.average)
    else h.stop
  }

  predicate IsArmed(s: State, symbol: string) { symbol in s.rules.breakEven && s.rules.breakEven[symbol] }

  function MovedToBreakEven(s: State, symbol: string, price: real): State
    requires symbol in s.account.positions
  {
    var h := s.account.positions[symbol];
    s.(account := Bracketed(s.account, symbol, BreakEvenStop(h, IsArmed(s, symbol), price), h.target))
  }

  /** Whether the partial exit of a position fires; its risk is the one before break-even. */
  predicate PartialFires(s: State, symbol: string, h: Holding, risk: Option<real>, price: real) {
    symbol in s.rules.partials && risk.Some? && !s.rules.partials[symbol].done
    && OneRReached(h, risk.value, price) && s.rules.partials[symbol].percent / 100.0 > 0.0
  }

  function PartialQuantity(h: Holding, p: PartialExit): real { h.quantity * (p.percent / 100.0) }

  function WithPartialDone(s: State, symbol: string): State
    requires symbol in s.rules.partials
  {
    s.(rules := s.rules.(partials := s.rules.partials[symbol := s.rules.partials[symbol].(done := true)]))
  }

  function PartialExited(v: Venue, s: State, symbol: string, risk: Option<real>, price: real): Outcome
    requires symbol in s.account.positions
  {
    var h := s.account.positions[symbol];
    if !PartialFires(s, symbol, h, risk, price) then Outcome(s, false)
    else
      var closed := ClosedOut(v, s, symbol, Some(PartialQuantity(h, s.rules.partials[symbol])), price);
      if closed.raised then closed else Outcome(WithPartialDone(closed.state, symbol), false)
  }

  predicate StopHit(h: Holding, price: real) {
    h.stop.Some? && if IsLong(h.side) then price <= h.stop.value else price >= h.stop.value
  }

  predicate TargetHit(h: Holding, price: real) {
    h.target.Some? && if IsLong(h.side) then price >= h.target.value else price <= h.target.value
  }

  predicate RevertedToMean(s: State, symbol: string, h: Holding, price: real) {
    symbol in s.rules.meanReversion
    && if IsLong(h.side) then price <= s.rules.meanReversion[symbol]
       else IsShort(h.side) && price >= s.rules.meanReversion[symbol]
  }

  /** Trailing, then the mean-reversion exit, of a position that hit neither stop nor target. */
  function TrailOrRevert(v: Venue, s: State, symbol: string, price: real): Outcome
    requires symbol in s.account.positions
  {
    var h := s.account.positions[symbol];
    var stop := Trailed(s.rules.trailing, symbol, IsLong(h.side), price, h.stop);
    var t := s.(account := Bracketed(s.account, symbol, stop, h.target));
    if RevertedToMean(s, symbol, h, price) then ExitPosition(v, t, symbol, price) else Outcome(t, false)
  }

  function Protected(v: Venue, s: State, symbol: string, price: real): Outcome {
    if symbol !in s.account.positions then Outcome(s, false)
    else if StopHit(s.account.positions[symbol], price) || TargetHit(s.account.positions[symbol], price)
    then ExitPosition(v, s, symbol, price)
    else TrailOrRevert(v, s, symbol, price)
  }

  function MarkOne(a: Account, symbol: string, price: real): Account
    requires symbol in a.positions
  {
    a.(positions := a.positions[symbol := Marked(a.positions[symbol], price)])
  }

  function ManagePosition(v: Venue, s: State, symbol: string, price: real): Outcome {
    if symbol !in s.account.positions then Outcome(s, false)
    else
      var marked := s.(account := MarkOne(s.account, symbol, price));
      var risk := RiskOf(s.account.positions[symbol]);
      var exited := PartialExited(v, MovedToBreakEven(marked, symbol, price), symbol, risk, price);
      if exited.raised then exited else Protected(v, exited.state, symbol, price)
  }

  function PriceUpdate(v: Venue, s: State, symbol: string, price: real): Outcome {
    var priced := Priced(s, symbol, price);
    var matched := MatchOrders(v, priced, OpenIds(s.orders, s.book, Some(symbol)), price);
    if matched.raised then matched else ManagePosition(v, matched.state, symbol, price)
  }

  // ----- day end -----

  function CancelAll(s: State, ids: seq<OrderId>): State {
    if ids == [] then s else CancelOrder(CancelAll(s, ids[..|ids| - 1]), ids[|ids| - 1]).state
  }

  /** Exits in the order in which the position table lists the symbols. */
  function Flattened(v: Venue, s: State, symbols: seq<string>): Outcome {
    if symbols == [] then Outcome(s, false)
    else
      var before := Flattened(v, s, symbols[..|symbols| - 1]);
      if before.raised then before
      else
        var t, symbol := before.state, symbols[|symbols| - 1];
        if symbol !in t.account.positions then before
        else
          var price := if symbol in t.feed.prices then t.feed.prices[symbol] else t.account.positions[symbol].price;
          ExitPosition(v, t, symbol, price)
  }

  /** The closing snapshot and the start of the next day. */
  ghost function DayClosed(a: Account, prices: map<string, real>): Account {
    ResetDay(Snap(a, prices).0)
  }

  function Flatten(v: Venue, s: State, symbols: seq<string>): Outcome {
    if v.flattenAtEod then Flattened(v, s, symbols) else Outcome(s, false)
  }

  ghost function EndOfDay(v: Venue, s: State, symbols: seq<string>): Outcome {
    var flat := Flatten(v, CancelAll(s, OpenIds(s.orders, s.book, None)), symbols);
    if flat.raised then flat
    else Outcome(flat.state.(account := DayClosed(flat.state.account, flat.state.feed.prices)), false)
  }

  // ----- rules, failures, halts -----

  datatype Rules = Rules(
    breakEven: bool, partialPercent: Option<real>, trailing: Option<TrailingRule>, meanReversion: Option<real>)

  function Configured(b: RuleBook, symbol: string, r: Rules): RuleBook {
    RuleBook(b.breakEven[symbol := r.breakEven],
             if r.partialPercent.Some? then b.partials[symbol := PartialExit(r.partialPercent.value, false)]
             else b.partials,
             if r.meanReversion.Some? then b.meanReversion[symbol := r.meanReversion.value] else b.meanReversion,
             if r.trailing.Some? then b.trailing[symbol := r.trailing.value] else b.trailing)
  }

  function FailureSimulated(v: Venue, s: State, f: FailureMode): State {
    var t := s.(health := s.health.(failure := f));
    if IsTransport(f) || f == StaleMarketData then ApiFailed(v, t) else t
  }

  datatype Command =
    | Create(order: Order, market: Option<real>)
    | Cancel(id: OrderId)
    | Expire(id: OrderId)
    | Price(symbol: string, price: real)
    | SetPrice(symbol: string, price: real)
    | MarkStale(symbol: string)
    | DayEnd(listing: seq<string>)
    | TakeSnapshot
    | Configure(symbol: string, rules: Rules)
    | Simulate(failure: FailureMode)
    | ClearFailure
    | Halt(reason: string)
    | ResetHalt

  /** Prices, rules, failures and halts: commands that touch neither orders nor money. */
  function Setting(v: Venue, s: State, c: Command): State {
    match c
    case SetPrice(symbol, price) => Priced(s, symbol, price)
    case MarkStale(symbol) => s.(feed := s.feed.(stale := s.feed.stale + {symbol}))
    case Configure(symbol, rules) => s.(rules := Configured(s.rules, symbol, rules))
    case Simulate(f) => FailureSimulated(v, s, f)
    case ClearFailure => s.(health := s.health.(failure := NoFailure, apiFailures := 0))
    case Halt(reason) => s.(health := s.health.(halted := true, reason := reason))
    case ResetHalt => s.(health := Health(false, "", 0, NoFailure))
    case _ => s
  }

  ghost function Step(v: Venue, s: State, c: Command): Outcome {
    match c
    case Create(o, market) => CreateOrder(v, s, o, market)
    case Cancel(id) => CancelOrder(s, id)
    case Expire(id) => ExpireOrder(s, id)
    case Price(symbol, price) => PriceUpdate(v, s, symbol, price)
    case DayEnd(listing) => EndOfDay(v, s, listing)
    case TakeSnapshot => Outcome(s.(account := Snap(s.account, s.feed.prices).0), false)
    case _ => Outcome(Setting(v, s, c), false)
  }

  /** A run; a command that ends in an exception leaves what it had already done. */
  ghost function Run(v: Venue, s: State, commands: seq<Command>): State {
    if commands == [] then s else Step(v, Run(v, s, commands[..|commands| - 1]), commands[|commands| - 1]).state
  }
}
