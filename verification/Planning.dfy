/** The trade planner: a size from the risk budget, a stop from structure, a target from the
    strategy, and why the risk engine has nothing to say against them. */
module Planning {
  import opened Prelude
  import opened RiskLimits
  import opened RiskGate
  import Windows
  import Indicators
  import Wilder

  datatype Decision = Long | Short | Stay

  /** What the planner is given of the features: last close, structural stops, average true range. */
  datatype Features = Features(entry: Option<real>, stopLong: Option<real>, stopShort: Option<real>, atr: Option<real>)

  datatype Plan = Plan(trade: Trade, atRisk: real, riskReward: real, fee: real)

  /** No trade, with its reason, a plan, or the division by a zero price. */
  datatype Outcome = NoTrade(reason: string) | Proposed(plan: Plan) | Raised

  function SideOf(d: Decision): Side { if d == Long then Buying else Selling }

  /** The structural stop, or a multiple of the average true range away. */
  function StopFor(f: Features, side: Side, entry: real, multiple: real): Option<real> {
    var structural := if side == Buying then f.stopLong else f.stopShort;
    if structural.Some? || f.atr.None? then structural
    else Some(RangeStop(side, entry, multiple, f.atr.value))
  }

  function RangeStop(side: Side, entry: real, multiple: real, range: real): real {
    if side == Buying then entry - multiple * range else entry + multiple * range
  }

  /** The planner sees no guideline. */
  function PlannerLimits(g: Global, s: Strategy): Limits { Merge(g, Some(s), None) }

  function Target(side: Side, entry: real, distance: real, reward: real): real {
    if side == Buying then entry + reward * distance else entry - reward * distance
  }

  /** The smaller of the size that risks the budget at the stop and the size the caps allow. */
  function PlannedQuantity(l: Limits, equity: real, distance: real, entry: real): real
    requires distance > 0.0 && entry != 0.0
  {
    Min(BudgetSize(equity, l.risk, distance), CapBudget(l.caps, equity) / entry)
  }

  function CapBudget(c: Caps, equity: real): real { equity * Min(c.trade, c.position) }

  predicate StopMissing(s: Strategy, d: Decision, f: Features)
    requires f.entry.Some?
  {
    var stop := StopFor(f, SideOf(d), f.entry.value, s.atrMultiple);
    stop.None? || stop.value == f.entry.value
  }

  /** A plan made for a decision from features. */
  predicate IsDraft(p: Plan, g: Global, s: Strategy, d: Decision, f: Features, equity: real)
    requires f.entry.Some? && !StopMissing(s, d, f)
  {
    var t := p.trade;
    && t.entry == f.entry.value && t.side == SideOf(d) && t.stop == StopFor(f, SideOf(d), t.entry, s.atrMultiple)
    && t.target == Some(Target(t.side, t.entry, Distance(t), s.target)) && t.entry != 0.0
    && t.quantity == PlannedQuantity(PlannerLimits(g, s), equity, Distance(t), t.entry)
    && t.notional == t.quantity * t.entry
    && p.atRisk == t.quantity * Distance(t) && p.riskReward == Abs(t.target.value - t.entry) / Distance(t)
  }

  class TradePlanner {
    const limits: Global

    constructor (limits: Global)
      ensures this.limits == limits
    {
      this.limits := limits;
    }

    /** Plans exactly when there is a side, a confirmed model, a price and a stop away from it. */
    method Make(s: Strategy, d: Decision, confirmed: bool, f: Features, equity: real, feeRate: real)
      returns (r: Outcome)
      ensures r.NoTrade? <==> d == Stay || !confirmed || f.entry.None? || StopMissing(s, d, f)
      ensures r.Raised? <==> !r.NoTrade? && f.entry.value == 0.0
      ensures r.Proposed? ==> IsDraft(r.plan, limits, s, d, f, equity) && r.plan.fee == r.plan.trade.notional * feeRate
    {
      if d == Stay {
        return NoTrade("NO_TRADE");
      }
      if !confirmed {
        return NoTrade("NO_VALID_MODEL");
      }
      if f.entry.None? {
        return NoTrade("STRATEGY_DATA_UNAVAILABLE");
      }
      var entry := f.entry.value;
      var stop := if d == Long then f.stopLong else f.stopShort;
      if stop.None? && f.atr.Some? {
        stop := Some(RangeStop(SideOf(d), entry, s.atrMultiple, f.atr.value));
      }
      var l, conflicts := MergeEffectiveLimits(limits, Some(s), None);
      if stop.None? || Abs(entry - stop.value) <= 0.0 {
        return NoTrade("INVALID_STOP");
      }
      if entry == 0.0 {
        return Raised;
      }
      var distance := Abs(entry - stop.value);
      var quantity := Size(l, equity, distance, entry);
      var plan := Sketch(SideOf(d), entry, stop.value, distance, quantity, s.target, feeRate);
      SketchIsDraft(limits, s, d, f, equity, distance, quantity, feeRate, plan);
      r := Proposed(plan);
    }

    method Size(l: Limits, equity: real, distance: real, entry: real) returns (quantity: real)
      requires distance > 0.0 && entry != 0.0
      ensures quantity == PlannedQuantity(l, equity, distance, entry)
    {
      quantity := BudgetSize(equity, l.risk, distance);
      quantity := Min(quantity, CapBudget(l.caps, equity) / entry);
    }
  }

  /** The figures of a plan from its size and its distance to the stop. */
  function Sketch(side: Side, entry: real, stop: real, distance: real, quantity: real, reward: real,
                  feeRate: real): Plan
    requires distance != 0.0
  {
    var target := Target(side, entry, distance, reward);
    var trade := Trade(side, quantity, quantity * entry, entry, Some(stop), Some(target));
    Plan(trade, quantity * distance, Abs(target - entry) / distance, trade.notional * feeRate)
  }

  lemma SketchIsDraft(g: Global, s: Strategy, d: Decision, f: Features, equity: real, distance: real, quantity: real,
                      feeRate: real, p: Plan)
    requires f.entry.Some? && !StopMissing(s, d, f) && f.entry.value != 0.0 && distance > 0.0
    requires var stop := StopFor(f, SideOf(d), f.entry.value, s.atrMultiple).value;
             distance == Abs(f.entry.value - stop)
             && p == Sketch(SideOf(d), f.entry.value, stop, distance, quantity, s.target, feeRate)
    requires quantity == PlannedQuantity(PlannerLimits(g, s), equity, distance, f.entry.value)
    ensures IsDraft(p, g, s, d, f, equity) && p.fee == p.trade.notional * feeRate
  {
  }

  // ----- what a plan keeps to -----

  /** Stops lie on the losing side of the entry, or at it. */
  predicate Coherent(f: Features) {
    f.entry.Some?
    && (f.stopLong.Some? ==> f.stopLong.value <= f.entry.value)
    && (f.stopShort.Some? ==> f.entry.value <= f.stopShort.value)
    && (f.atr.Some? ==> 0.0 <= f.atr.value)
  }

  /** The stop a plan is drafted with is strictly on the losing side. */
  lemma StopIsOnTheLosingSide(s: Strategy, d: Decision, f: Features)
    requires s.Valid() && Coherent(f) && d != Stay && !StopMissing(s, d, f)
    ensures var stop := StopFor(f, SideOf(d), f.entry.value, s.atrMultiple).value;
            if d == Long then stop < f.entry.value else f.entry.value < stop
  {
    if f.atr.Some? {
      NonNegativeProduct(s.atrMultiple, f.atr.value);
    }
  }

  /** Where the stop comes from: the structure of its side, or else the strategy's multiple of the range
      away from the price on the losing side, or nowhere. */
  lemma StopComesFrom(s: Strategy, d: Decision, f: Features)
    requires f.entry.Some? && d != Stay
    ensures var stop, entry := StopFor(f, SideOf(d), f.entry.value, s.atrMultiple), f.entry.value;
            && (d == Long && f.stopLong.Some? ==> stop == f.stopLong)
            && (d == Short && f.stopShort.Some? ==> stop == f.stopShort)
            && (d == Long && f.stopLong.None? && f.atr.Some? ==>
                  stop.Some? && stop.value == entry - s.atrMultiple * f.atr.value)
            && (d == Short && f.stopShort.None? && f.atr.Some? ==>
                  stop.Some? && stop.value == entry + s.atrMultiple * f.atr.value)
            && (f.atr.None? ==> stop == if d == Long then f.stopLong else f.stopShort)
  {
  }

  lemma Cancel(x: real, d: real)
    requires d != 0.0
    ensures x / d * d == x && x * d / d == x
  {
  }

  lemma RewardIsTarget(side: Side, entry: real, d: real, reward: real)
    requires d > 0.0 && 0.0 < reward
    ensures Abs(Target(side, entry, d, reward) - entry) / d == reward
    ensures if side == Buying then entry < Target(side, entry, d, reward) else Target(side, entry, d, reward) < entry
  {
    assert reward * d > 0.0;
    Cancel(reward, d);
  }

  /** A trade sized by the planner's rule for some equity. */
  predicate Sized(t: Trade, l: Limits, equity: real) {
    0.0 < t.entry && t.stop.Some? && 0.0 < Distance(t)
    && t.quantity == PlannedQuantity(l, equity, Distance(t), t.entry) && t.notional == t.quantity * t.entry
  }

  lemma BudgetIsSpent(equity: real, risk: real, distance: real)
    requires 0.0 < distance
    ensures BudgetSize(equity, risk, distance) * distance == equity * risk
  {
    Cancel(equity * risk, distance);
  }

  /** A sized trade risks at most the budget at its stop. */
  lemma SizeKeepsBudget(t: Trade, l: Limits, equity: real)
    requires Sized(t, l, equity)
    ensures t.quantity * Distance(t) <= equity * l.risk
  {
    ScaleLeq(t.quantity, BudgetSize(equity, l.risk, Distance(t)), Distance(t));
    BudgetIsSpent(equity, l.risk, Distance(t));
  }

  /** And it is the largest that does: no larger `q` keeps to the budget at the stop and to both
      caps in value. */
  lemma SizeIsLargest(t: Trade, l: Limits, equity: real, q: real)
    requires Sized(t, l, equity) && 0.0 <= equity
    requires q * Distance(t) <= equity * l.risk
    requires q * t.entry <= equity * l.caps.trade && q * t.entry <= equity * l.caps.position
    ensures q <= t.quantity
  {
    Windows.QuotientAtLeast(equity * l.risk, Distance(t), q);
    Windows.QuotientAtLeast(CapBudget(l.caps, equity), t.entry, q);
  }

  // ----- features of the bars -----

  /** Lowest of the last three lows for a long, highest of the last three highs for a short. */
  function SwingStop(bars: seq<Wilder.Bar>, side: Side): Option<real> {
    var n := |bars|;
    if n < 3 then None
    else if side == Buying then Some(Min(Min(bars[n - 3].low, bars[n - 2].low), bars[n - 1].low))
    else if side == Selling then Some(Max(Max(bars[n - 3].high, bars[n - 2].high), bars[n - 1].high))
    else None
  }

  /** The features of a closed series; below fifty bars there are none. */
  function FeaturesOf(bars: seq<Wilder.Bar>): Features {
    if |bars| < 50 then Features(None, None, None, None)
    else
      Features(Some(bars[|bars| - 1].close), SwingStop(bars, Buying), SwingStop(bars, Selling),
               Indicators.SmaAt(Wilder.TrueRanges(bars), 14, |bars| - 1))
  }

  function HighestRange(trs: seq<real>): (m: real)
    ensures forall i :: 0 <= i < |trs| ==> trs[i] <= m
  {
    if trs == [] then 0.0 else Max(HighestRange(trs[..|trs| - 1]), trs[|trs| - 1])
  }

  /** On bars whose close lies between low and high the features put stops where they belong. */
  lemma FeaturesAreCoherent(bars: seq<Wilder.Bar>)
    requires Wilder.AllWellFormed(bars) && 50 <= |bars|
    ensures Coherent(FeaturesOf(bars))
  {
    var n := |bars|;
    assert Wilder.WellFormed(bars[n - 1]);
    var window := Wilder.TrueRanges(bars)[n - 14..n];
    forall i | 0 <= i < |window|
      ensures 0.0 <= window[i]
    {
      Wilder.MovesWithinRange(bars, n - 14 + i);
    }
    Windows.MeanWithin(window, 0.0, HighestRange(window));
  }

  // ----- planner and engine -----

  lemma CapBudgetIsMaxSize(c: Caps, equity: real)
    requires 0.0 <= equity
    ensures CapBudget(c, equity) == MaxSize(c, equity)
  {
    if c.trade <= c.position {
      ScaleLeq(c.trade, c.position, equity);
    } else {
      ScaleLeq(c.position, c.trade, equity);
    }
  }

  lemma SmallerTimes(x: real, y: real, e: real)
    requires 0.0 < e
    ensures Min(x, y / e) * e == Min(x * e, y)
  {
    Cancel(y, e);
    if x <= y / e {
      ScaleLeq(x, y / e, e);
    } else {
      ScaleLeq(y / e, x, e);
    }
  }

  lemma PlannedNotional(l: Limits, equity: real, distance: real, entry: real)
    requires 0.0 < entry && 0.0 < distance && 0.0 <= equity
    ensures PlannedQuantity(l, equity, distance, entry) * entry
         == Min(MaxSize(l.caps, equity), AtRisk(equity, l.risk, distance, entry))
  {
    CapBudgetIsMaxSize(l.caps, equity);
    SmallerTimes(BudgetSize(equity, l.risk, distance), CapBudget(l.caps, equity), entry);
  }

  lemma QuantityOfNotional(q: real, e: real, notional: real)
    requires 0.0 < e && q * e == notional
    ensures notional / e == q
  {
    Cancel(q, e);
  }

  /** A sized trade is exactly the largest the engine would allow at its stop. */
  lemma SizeIsTheAllowance(t: Trade, l: Limits, equity: real)
    requires Sized(t, l, equity) && 0.0 <= equity
    ensures t.notional == MaxNotional(l, t, equity) && t.quantity == MaxQuantity(l, t, equity)
  {
    PlannedNotional(l, equity, Distance(t), t.entry);
    QuantityOfNotional(t.quantity, t.entry, t.notional);
  }

  /** The caps are the global ones whatever the strategy or the guideline, so a sized trade stays
      within those of any merge. */
  lemma SizeStaysWithinCaps(t: Trade, g: Global, s: Strategy, o: Option<Okf>, b: Book)
    requires Sized(t, PlannerLimits(g, s), b.equity) && 0.0 <= b.equity
    ensures var l := LimitsFor(g, Some(s), o);
            !TradeBlocks(POSITION_LIMIT_EXCEEDED, l, t, b) && !TradeBlocks(TRADE_SIZE_LIMIT_EXCEEDED, l, t, b)
  {
    PlannedNotional(PlannerLimits(g, s), b.equity, Distance(t), t.entry);
    WithinCaps(LimitsFor(g, Some(s), o), t, b);
  }

  lemma WithinCaps(l: Limits, t: Trade, b: Book)
    requires 0.0 <= b.equity && t.notional <= MaxSize(l.caps, b.equity)
    ensures !TradeBlocks(POSITION_LIMIT_EXCEEDED, l, t, b) && !TradeBlocks(TRADE_SIZE_LIMIT_EXCEEDED, l, t, b)
  {
  }

  /** A plan risks at most the budget, has its stop strictly on the losing side and exactly the
      strategy's reward, and is sized for the equity. */
  predicate KeepsToStrategy(p: Plan, l: Limits, s: Strategy, d: Decision, equity: real) {
    var t := p.trade;
    && p.atRisk <= equity * l.risk && p.riskReward == s.target
    && t.stop.Some? && t.target.Some? && t.side == SideOf(d) && Sized(t, l, equity)
    && (if d == Long then t.stop.value < t.entry < t.target.value else t.target.value < t.entry < t.stop.value)
    && Abs(t.target.value - t.entry) / Distance(t) == s.target
  }

  lemma DraftKeepsToStrategy(g: Global, s: Strategy, d: Decision, f: Features, p: Plan, equity: real)
    requires s.Valid() && Coherent(f) && d != Stay && !StopMissing(s, d, f) && 0.0 < f.entry.value
    requires IsDraft(p, g, s, d, f, equity)
    ensures KeepsToStrategy(p, PlannerLimits(g, s), s, d, equity)
  {
    StopIsOnTheLosingSide(s, d, f);
    SizeKeepsBudget(p.trade, PlannerLimits(g, s), equity);
    RewardIsTarget(SideOf(d), p.trade.entry, Distance(p.trade), s.target);
  }

  /** The engine draws none of the codes about size or stop, and the reward code exactly when the
      strategy aims below the merged minimum. */
  ghost predicate DrawsOnlyReward(t: Trade, l: Limits, s: Strategy, b: Book) {
    && (forall code :: code in SIZE_AND_STOP_CODES ==> !TradeBlocks(code, l, t, b))
    && (TradeBlocks(RISK_REWARD_TOO_LOW, l, t, b) <==> s.target < l.riskReward)
  }

  /** The whole agreement of a plan and the risk engine: the plan keeps to its strategy, it is the
      engine's own allowance, and the engine has only its reward to object to. */
  ghost predicate Agrees(g: Global, s: Strategy, d: Decision, p: Plan, o: Option<Okf>, b: Book) {
    && KeepsToStrategy(p, PlannerLimits(g, s), s, d, b.equity)
    && p.trade.quantity == MaxQuantity(LimitsFor(g, Some(s), None), p.trade, b.equity)
    && DrawsOnlyReward(p.trade, LimitsFor(g, Some(s), o), s, b)
  }

  /** Every plan made from coherent features for the book's equity agrees. */
  lemma PlannerAndEngineAgree(g: Global, s: Strategy, d: Decision, f: Features, p: Plan, o: Option<Okf>, b: Book)
    requires s.Valid() && Coherent(f) && d != Stay && !StopMissing(s, d, f) && 0.0 < f.entry.value && 0.0 <= b.equity
    requires IsDraft(p, g, s, d, f, b.equity)
    ensures Agrees(g, s, d, p, o, b)
  {
    DraftKeepsToStrategy(g, s, d, f, p, b.equity);
    SizeIsTheAllowance(p.trade, PlannerLimits(g, s), b.equity);
    SizeStaysWithinCaps(p.trade, g, s, o, b);
    OnlyRewardIsDrawn(p, PlannerLimits(g, s), LimitsFor(g, Some(s), o), s, d, b);
  }

  lemma OnlyRewardIsDrawn(p: Plan, planned: Limits, l: Limits, s: Strategy, d: Decision, b: Book)
    requires KeepsToStrategy(p, planned, s, d, b.equity) && d != Stay
    requires !TradeBlocks(POSITION_LIMIT_EXCEEDED, l, p.trade, b)
    requires !TradeBlocks(TRADE_SIZE_LIMIT_EXCEEDED, l, p.trade, b)
    ensures DrawsOnlyReward(p.trade, l, s, b)
  {
  }

  /** From the bars: on a long enough series of well-formed bars the planner lacks a stop exactly
      when the last close is the extreme of the last three bars, and every plan it makes at a
      positive close agrees with the engine, under any guideline. */
  lemma PlansFromBarsAgree(g: Global, s: Strategy, d: Decision, bars: seq<Wilder.Bar>, p: Plan, o: Option<Okf>, b: Book)
    requires s.Valid() && Wilder.AllWellFormed(bars) && 50 <= |bars| && d != Stay
    ensures var n, close := |bars|, bars[|bars| - 1].close;
            StopMissing(s, d, FeaturesOf(bars))
            <==> forall i :: n - 3 <= i < n ==> if d == Long then close <= bars[i].low else bars[i].high <= close
    ensures !StopMissing(s, d, FeaturesOf(bars)) && IsDraft(p, g, s, d, FeaturesOf(bars), b.equity)
            && 0.0 < bars[|bars| - 1].close && 0.0 <= b.equity ==>
      Agrees(g, s, d, p, o, b)
  {
    var f := FeaturesOf(bars);
    FeaturesAreCoherent(bars);
    assert Wilder.WellFormed(bars[|bars| - 1]);
    if !StopMissing(s, d, f) && IsDraft(p, g, s, d, f, b.equity) && 0.0 < f.entry.value && 0.0 <= b.equity {
      PlannerAndEngineAgree(g, s, d, f, p, o, b);
    }
  }

  const SIZE_AND_STOP_CODES := {POSITION_LIMIT_EXCEEDED, TRADE_SIZE_LIMIT_EXCEEDED, STOP_LOSS_REQUIRED, INVALID_STOP}
}
