/** Risk limits from three sources, global, strategy and guideline, merged so that the stricter
    always wins. */
module RiskLimits {
  import opened Prelude

  /** Bounds that only the global configuration sets. */
  datatype Caps = Caps(
    position: real, trade: real, exposure: real, slippage: real, leverage: real,
    requireStop: bool, liquidity: real, confidence: real)

  datatype Global = Global(caps: Caps, daily: real, drawdown: real, trades: int, riskReward: real, kelly: real)

  /** A strategy states its percentages as percent, not as fractions. */
  datatype Strategy = Strategy(
    riskPercent: real, dailyPercent: real, trades: int, cooldown: int, riskReward: real,
    target: real, atrMultiple: real)
  {
    predicate Valid() {
      0.0 < riskPercent && 0.0 < dailyPercent && 0 < trades && 0 <= cooldown
      && 0.0 < riskReward && 0.0 < target && 0.0 < atrMultiple
    }
  }

  /** Guideline bounds as they reach the merge; any may be missing. */
  datatype Guideline = Guideline(
    risk: Option<real>, daily: Option<real>, drawdown: Option<real>, trades: Option<int>, kelly: Option<real>,
    cooldown: Option<int>)

  datatype Limits = Limits(
    caps: Caps, risk: real, daily: real, drawdown: real, trades: int, cooldown: int, riskReward: real, kelly: real)

  datatype Field = RISK_PER_TRADE | DAILY_LOSS | DRAWDOWN | TRADES_PER_DAY | KELLY

  // ----- merging -----

  function Or<T>(o: Option<T>, other: T): T { if o.Some? then o.value else other }

  /** Global and strategy limits, before any guideline. */
  function Base(g: Global, s: Option<Strategy>): Limits {
    if s.None? then Limits(g.caps, g.caps.trade, g.daily, g.drawdown, g.trades, 0, Max(g.riskReward, 1.0), g.kelly)
    else
      Limits(g.caps, Min(g.caps.trade, s.value.riskPercent / 100.0),
             Min(g.daily, s.value.dailyPercent / 100.0), g.drawdown,
             MinInt(g.trades, s.value.trades), s.value.cooldown, Max(g.riskReward, s.value.riskReward), g.kelly)
  }

  function Tightened(l: Limits, o: Guideline): Limits {
    l.(risk := Min(l.risk, Or(o.risk, l.risk)), daily := Min(l.daily, Or(o.daily, l.daily)),
       drawdown := Min(l.drawdown, Or(o.drawdown, l.drawdown)), trades := MinInt(l.trades, Or(o.trades, l.trades)),
       cooldown := MaxInt(l.cooldown, Or(o.cooldown, 0)), kelly := Min(l.kelly, Or(o.kelly, l.kelly)))
  }

  function Merge(g: Global, s: Option<Strategy>, o: Option<Guideline>): Limits {
    if o.None? then Base(g, s) else Tightened(Base(g, s), o.value)
  }

  /** The fields where a guideline differs from what was there before it. */
  function Disagreements(l: Limits, o: Guideline): set<Field> {
    (if l.risk != Or(o.risk, l.risk) then {RISK_PER_TRADE} else {}) +
    (if l.daily != Or(o.daily, l.daily) then {DAILY_LOSS} else {}) +
    (if l.drawdown != Or(o.drawdown, l.drawdown) then {DRAWDOWN} else {}) +
    (if l.trades != Or(o.trades, l.trades) then {TRADES_PER_DAY} else {}) +
    (if l.kelly != Or(o.kelly, l.kelly) then {KELLY} else {})
  }

  /** The merge as the program does it: fields narrowed one after another, disagreements noted. */
  method MergeEffectiveLimits(g: Global, s: Option<Strategy>, o: Option<Guideline>)
    returns (l: Limits, conflicts: seq<Field>)
    ensures l == Merge(g, s, o)
    ensures forall f :: f in conflicts <==> o.Some? && f in Disagreements(Base(g, s), o.value)
    ensures o.Some? && conflicts == [] ==> l == Base(g, s).(cooldown := l.cooldown)
  {
    var risk, daily, trades, cooldown, riskReward := g.caps.trade, g.daily, g.trades, 0, 1.0;
    if s.Some? {
      risk, daily := Min(risk, s.value.riskPercent / 100.0), Min(daily, s.value.dailyPercent / 100.0);
      trades, cooldown, riskReward := MinInt(trades, s.value.trades), s.value.cooldown, s.value.riskReward;
    }
    var drawdown, kelly := g.drawdown, g.kelly;
    conflicts := [];
    if o.Some? {
      var c;
      risk, c := MinField(RISK_PER_TRADE, risk, Or(o.value.risk, risk));
      conflicts := conflicts + c;
      daily, c := MinField(DAILY_LOSS, daily, Or(o.value.daily, daily));
      conflicts := conflicts + c;
      drawdown, c := MinField(DRAWDOWN, drawdown, Or(o.value.drawdown, drawdown));
      conflicts := conflicts + c;
      var okfTrades := Or(o.value.trades, trades);
      if trades != okfTrades {
        conflicts := conflicts + [TRADES_PER_DAY];
      }
      trades := MinInt(trades, okfTrades);
      kelly, c := MinField(KELLY, kelly, Or(o.value.kelly, kelly));
      conflicts := conflicts + c;
      cooldown := MaxInt(cooldown, Or(o.value.cooldown, 0));
    }
    l := Limits(g.caps, risk, daily, drawdown, trades, cooldown, Max(g.riskReward, riskReward), kelly);
  }

  method MinField(f: Field, current: real, guideline: real) returns (effective: real, conflict: seq<Field>)
    ensures effective == Min(current, guideline)
    ensures conflict == if current != guideline then [f] else []
  {
    effective := Min(current, guideline);
    conflict := if current != guideline then [f] else [];
  }

  // ----- stricter -----

  predicate CapsStricter(a: Caps, b: Caps) {
    && a.position <= b.position && a.trade <= b.trade && a.exposure <= b.exposure && a.slippage <= b.slippage
    && a.leverage <= b.leverage && (b.requireStop ==> a.requireStop)
    && b.liquidity <= a.liquidity && b.confidence <= a.confidence
  }

  /** At least as strict in every bound. */
  predicate Stricter(a: Limits, b: Limits) {
    && CapsStricter(a.caps, b.caps) && a.risk <= b.risk && a.daily <= b.daily && a.drawdown <= b.drawdown
    && a.trades <= b.trades && b.cooldown <= a.cooldown && b.riskReward <= a.riskReward && a.kelly <= b.kelly
  }

  /** Within the bounds of every source, and of the defaults where there is no strategy. */
  predicate Respects(l: Limits, g: Global, s: Option<Strategy>, o: Option<Guideline>) {
    && CapsStricter(l.caps, g.caps) && l.risk <= g.caps.trade && l.daily <= g.daily && l.drawdown <= g.drawdown
    && l.trades <= g.trades && 0 <= l.cooldown && g.riskReward <= l.riskReward && l.kelly <= g.kelly
    && (s.None? ==> 1.0 <= l.riskReward)
    && (s.Some? ==> RespectsStrategy(l, s.value))
    && (o.Some? ==> RespectsGuideline(l, o.value))
  }

  predicate RespectsStrategy(l: Limits, s: Strategy) {
    && l.risk * 100.0 <= s.riskPercent && l.daily * 100.0 <= s.dailyPercent && l.trades <= s.trades
    && s.cooldown <= l.cooldown && s.riskReward <= l.riskReward
  }

  predicate RespectsGuideline(l: Limits, o: Guideline) {
    && (o.risk.Some? ==> l.risk <= o.risk.value) && (o.daily.Some? ==> l.daily <= o.daily.value)
    && (o.drawdown.Some? ==> l.drawdown <= o.drawdown.value) && (o.trades.Some? ==> l.trades <= o.trades.value)
    && (o.kelly.Some? ==> l.kelly <= o.kelly.value) && (o.cooldown.Some? ==> o.cooldown.value <= l.cooldown)
  }

  /** The merged limits are the loosest that respect every source: limits respect all sources
      exactly when they are at least as strict as the merged ones. */
  lemma MergeIsTheBound(g: Global, s: Option<Strategy>, o: Option<Guideline>, l: Limits)
    requires s.Some? ==> s.value.Valid()
    ensures Respects(l, g, s, o) <==> Stricter(l, Merge(g, s, o))
  {
    if s.Some? {
      assert l.risk <= s.value.riskPercent / 100.0 <==> l.risk * 100.0 <= s.value.riskPercent;
      assert l.daily <= s.value.dailyPercent / 100.0 <==> l.daily * 100.0 <= s.value.dailyPercent;
    }
  }

  /** A guideline can only tighten, and tightening twice is tightening once. */
  lemma GuidelinesOnlyTighten(g: Global, s: Option<Strategy>, o: Guideline)
    ensures Stricter(Merge(g, s, Some(o)), Merge(g, s, None))
    ensures Tightened(Merge(g, s, Some(o)), o) == Merge(g, s, Some(o))
  {
  }

  // ----- the guideline document -----

  /** Guideline percentages, and the turnover section's optional bounds. */
  datatype Guide = Guide(
    riskPercent: real, dailyPercent: real, drawdownPercent: real, trades: Option<int>, cooldown: Option<int>)

  const GUIDE_KELLY: real := 0.25

  /** The guideline resolved against the system's limits. */
  function Resolve(g: Guide, system: Global): (o: Guideline) {
    Guideline(Some(Min(g.riskPercent / 100.0, system.caps.trade)), Some(Min(g.dailyPercent / 100.0, system.daily)),
              Some(Min(g.drawdownPercent / 100.0, system.drawdown)),
              Some(MinInt(Or(g.trades, system.trades), system.trades)),
              Some(Min(GUIDE_KELLY, system.kelly)), Some(MaxInt(Or(g.cooldown, 0), 0)))
  }

  /** A resolved guideline is exactly as strict as the guideline in percent and the system together. */
  lemma ResolveIsTheBound(g: Guide, system: Global, x: real, n: int)
    ensures var o := Resolve(g, system);
            && o.risk.Some? && o.daily.Some? && o.drawdown.Some? && o.trades.Some? && o.kelly.Some? && o.cooldown.Some?
            && (x <= o.risk.value <==> 100.0 * x <= g.riskPercent && x <= system.caps.trade)
            && (x <= o.daily.value <==> 100.0 * x <= g.dailyPercent && x <= system.daily)
            && (x <= o.drawdown.value <==> 100.0 * x <= g.drawdownPercent && x <= system.drawdown)
            && (x <= o.kelly.value <==> 4.0 * x <= 1.0 && x <= system.kelly)
            && (n <= o.trades.value <==> n <= system.trades && (g.trades.Some? ==> n <= g.trades.value))
            && (o.cooldown.value <= n <==> 0 <= n && (g.cooldown.Some? ==> g.cooldown.value <= n))
  {
  }

  /** A conflict is a bound of the guideline that is not the one in force before it. */
  lemma DisagreesIff(l: Limits, o: Guideline)
    ensures var found := Disagreements(l, o);
            && (RISK_PER_TRADE in found <==> o.risk.Some? && o.risk.value != l.risk)
            && (DAILY_LOSS in found <==> o.daily.Some? && o.daily.value != l.daily)
            && (DRAWDOWN in found <==> o.drawdown.Some? && o.drawdown.value != l.drawdown)
            && (TRADES_PER_DAY in found <==> o.trades.Some? && o.trades.value != l.trades)
            && (KELLY in found <==> o.kelly.Some? && o.kelly.value != l.kelly)
  {
  }

  /** The system's limits with the resolved bounds taken over. Risk per trade is not among them: it
      acts in the merge. */
  function Applied(g: Guide, system: Global): Global {
    var o := Resolve(g, system);
    system.(daily := o.daily.value, drawdown := o.drawdown.value, trades := o.trades.value, kelly := o.kelly.value)
  }

  /** Applying the guideline never loosens a limit, applying it again changes nothing, and the
      resolved guideline merges to the same limits before and after. */
  lemma ApplyingTwiceIsApplyingOnce(g: Guide, system: Global, s: Option<Strategy>)
    ensures Applied(g, Applied(g, system)) == Applied(g, system)
    ensures Resolve(g, Applied(g, system)) == Resolve(g, system)
    ensures Merge(Applied(g, system), s, Some(Resolve(g, system))) == Merge(system, s, Some(Resolve(g, system)))
    ensures Stricter(Merge(Applied(g, system), s, None), Merge(system, s, None))
  {
  }

  /** The system's own limits after a guideline: its daily loss, drawdown, count and Kelly bounds are the
      resolved ones, and nothing else has moved. */
  lemma AppliedIs(g: Guide, system: Global)
    ensures var a, o := Applied(g, system), Resolve(g, system);
            && a.daily == o.daily.value && a.drawdown == o.drawdown.value && a.trades == o.trades.value
            && a.kelly == o.kelly.value && a.caps == system.caps && a.riskReward == system.riskReward
  {
  }
}
