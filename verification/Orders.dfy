/** Orders, their status machine and the fills recorded against them. */
module Orders {
  import opened Prelude
  import opened Costs

  datatype OrderType = MARKET | LIMIT | STOP | STOP_LIMIT | TAKE_PROFIT

  datatype Status = CREATED | VALIDATED | SUBMITTED | PARTIALLY_FILLED | FILLED | CANCELLED | REJECTED | EXPIRED

  /** An id the exchange derived from its sequence number, or one the caller supplied. */
  datatype OrderId = Generated(sequence: nat) | Supplied(name: string)

  datatype Order = Order(
    id: Option<OrderId>, clientId: string, symbol: string, asset: AssetClass, side: Side, kind: OrderType,
    quantity: real, filled: real, limit: Option<real>, stop: Option<real>, status: Status,
    requested: Option<real>, average: Option<real>, fees: real, slippage: real, reason: string,
    stopLoss: Option<real>, takeProfit: Option<real>)

  datatype Fill = Fill(
    order: OrderId, symbol: string, side: Side, quantity: real, price: real, slippage: real, fee: real)

  /** The transition table. */
  function Successors(s: Status): set<Status> {
    match s
    case CREATED => {VALIDATED, SUBMITTED, FILLED, PARTIALLY_FILLED, REJECTED, CANCELLED}
    case VALIDATED => {SUBMITTED, REJECTED, CANCELLED}
    case SUBMITTED => {PARTIALLY_FILLED, FILLED, CANCELLED, EXPIRED}
    case PARTIALLY_FILLED => {FILLED, CANCELLED, EXPIRED}
    case FILLED | CANCELLED | REJECTED | EXPIRED => {}
  }

  /** A transition to the current status is allowed and does nothing. */
  predicate MayBecome(s: Status, t: Status) { s == t || t in Successors(s) }

  predicate Terminal(s: Status) { s == FILLED || s == CANCELLED || s == REJECTED || s == EXPIRED }

  predicate IsOpen(s: Status) { !Terminal(s) }

  // ----- triggers of resting orders -----

  predicate LimitTriggered(o: Order, price: real) {
    o.limit.Some? && if IsBuy(o.side) then price <= o.limit.value else price >= o.limit.value
  }

  predicate StopTriggered(o: Order, price: real) {
    o.stop.Some? && if IsBuy(o.side) then price >= o.stop.value else price <= o.stop.value
  }

  /** A take-profit without a stop price falls back on its limit price. */
  predicate TakeProfitTriggered(o: Order, price: real) {
    var trigger := if o.stop.Some? then o.stop else o.limit;
    trigger.Some? && if IsBuy(o.side) then price <= trigger.value else price >= trigger.value
  }

  /** The limit price, or the market price where the limit is absent or zero. */
  function LimitOr(o: Order, price: real): real {
    if o.limit.Some? && o.limit.value != 0.0 then o.limit.value else price
  }

  predicate Triggered(o: Order, price: real) {
    match o.kind
    case MARKET => false
    case LIMIT => LimitTriggered(o, price)
    case STOP | STOP_LIMIT => StopTriggered(o, price)
    case TAKE_PROFIT => TakeProfitTriggered(o, price)
  }

  // ----- sums over the fill log -----

  /** Units filled for one order. */
  function FilledFor(fills: seq<Fill>, id: OrderId): real {
    if fills == [] then 0.0
    else
      var last := fills[|fills| - 1];
      FilledFor(fills[..|fills| - 1], id) + if last.order == id then last.quantity else 0.0
  }

  /** Fees charged to one order. */
  function FeesFor(fills: seq<Fill>, id: OrderId): real {
    if fills == [] then 0.0
    else FeesFor(fills[..|fills| - 1], id) + (if fills[|fills| - 1].order == id then fills[|fills| - 1].fee else 0.0)
  }

  function AllFees(fills: seq<Fill>): real {
    if fills == [] then 0.0
    else AllFees(fills[..|fills| - 1]) + fills[|fills| - 1].fee
  }

  lemma FillAppended(fills: seq<Fill>, f: Fill)
    ensures AllFees(fills + [f]) == AllFees(fills) + f.fee
    ensures forall id ::
      FilledFor(fills + [f], id) == FilledFor(fills, id) + (if f.order == id then f.quantity else 0.0)
    ensures forall id :: FeesFor(fills + [f], id) == FeesFor(fills, id) + (if f.order == id then f.fee else 0.0)
  {
    assert (fills + [f])[..|fills|] == fills;
  }

  lemma {:induction false} NoFillsNoSums(fills: seq<Fill>, id: OrderId)
    requires forall i :: 0 <= i < |fills| ==> fills[i].order != id
    ensures FilledFor(fills, id) == 0.0 && FeesFor(fills, id) == 0.0
  {
    if fills != [] {
      NoFillsNoSums(fills[..|fills| - 1], id);
    }
  }
}
