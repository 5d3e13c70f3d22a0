/** The risk engine: every check that can block a trade, the caps it reports, and the guideline
    gates that run after them. */
module RiskGate {
  import opened Prelude
  import opened RiskLimits

  datatype Side = Buying | Selling | Neither

  datatype Trade = Trade(
    side: Side, quantity: real, notional: real, entry: real, stop: Option<real>, target: Option<real>)

  /** `listed` is the outcome of the allowed-pairs filter. */
  datatype Conditions = Conditions(
    symbol: string, listed: bool, slippage: real, leverage: real, confidence: real, hasModels: bool,
    liquidity: Option<real>, stale: bool, bars: Option<int>)

  datatype Book = Book(
    equity: real, cash: real, exposure: real, dailyPnl: real, drawdown: real,
    tradesToday: int, killed: bool, halted: bool)

  /** What else a request says: `memory` is a refusal of the failure-memory gate. */
  datatype Situation = Situation(
    killed: bool, memory: Option<Code>, positions: Option<map<string, real>>, correlationKnown: bool,
    entering: bool, modifying: bool, style: string)

  datatype Code =
    | KILL_SWITCH_ACTIVE | TRADING_HALTED | STALE_MARKET_DATA | PAIR_NOT_ALLOWED | INVALID_TRADE | STOP_LOSS_REQUIRED
    | INVALID_STOP | RISK_REWARD_TOO_LOW | POSITION_LIMIT_EXCEEDED | TRADE_SIZE_LIMIT_EXCEEDED | EXPOSURE_LIMIT_EXCEEDED
    | DAILY_LOSS_LIMIT | DRAWDOWN_LIMIT | TRADE_COUNT_LIMIT | COOLDOWN_ACTIVE | SLIPPAGE_LIMIT | LEVERAGE_LIMIT
    | INSUFFICIENT_LIQUIDITY | INSUFFICIENT_CASH | INSUFFICIENT_CONFIDENCE | NO_VALID_MODEL | STRATEGY_DATA_UNAVAILABLE
    | CORRELATION_DATA_UNAVAILABLE | CORRELATION_FILTER_BLOCK | LOW_TURNOVER_BLOCK
    | FAILURE_MEMORY_UNAVAILABLE | FAILURE_MEMORY_MATCH_BLOCK

  // ----- trade checks -----

  function Distance(t: Trade): real { if t.stop.Some? then Abs(t.entry - t.stop.value) else 0.0 }

  predicate StopOnWrongSide(t: Trade) {
    t.stop.Some? && ((t.side == Buying && t.stop.value >= t.entry) || (t.side == Selling && t.stop.value <= t.entry))
  }

  predicate RewardTooLow(l: Limits, t: Trade) {
    t.stop.Some? && t.target.Some? && Distance(t) > 0.0 && Abs(t.target.value - t.entry) / Distance(t) < l.riskReward
  }

  /** A negative equity counts as none. */
  function Equity(b: Book): real { Max(b.equity, 0.0) }

  predicate TradeBlocks(code: Code, l: Limits, t: Trade, b: Book) {
    match code
    case INVALID_TRADE => t.quantity <= 0.0 || t.notional <= 0.0 || t.entry <= 0.0
    case STOP_LOSS_REQUIRED => l.caps.requireStop && t.stop.None?
    case INVALID_STOP => StopOnWrongSide(t)
    case RISK_REWARD_TOO_LOW => RewardTooLow(l, t)
    case POSITION_LIMIT_EXCEEDED => t.notional > Equity(b) * l.caps.position + CASH_SLACK
    case TRADE_SIZE_LIMIT_EXCEEDED => t.notional > Equity(b) * l.caps.trade + CASH_SLACK
    case EXPOSURE_LIMIT_EXCEEDED => b.exposure + t.notional > Equity(b) * l.caps.exposure + CASH_SLACK
    case INSUFFICIENT_CASH => t.notional > b.cash + CASH_SLACK && t.side == Buying
    case _ => false
  }

  predicate CoolingDown(bars: Option<int>, cooldown: int) { bars.Some? && cooldown > 0 && bars.value < cooldown }

  predicate BookBlocks(code: Code, l: Limits, c: Conditions, b: Book) {
    match code
    case DAILY_LOSS_LIMIT => Equity(b) > 0.0 && b.dailyPnl < 0.0 && Abs(b.dailyPnl) / Equity(b) >= l.daily
    case DRAWDOWN_LIMIT => b.drawdown >= l.drawdown
    case TRADE_COUNT_LIMIT => b.tradesToday >= l.trades
    case COOLDOWN_ACTIVE => CoolingDown(c.bars, l.cooldown)
    case SLIPPAGE_LIMIT => c.slippage > l.caps.slippage
    case LEVERAGE_LIMIT => c.leverage > l.caps.leverage
    case INSUFFICIENT_LIQUIDITY => c.liquidity.Some? && c.liquidity.value < l.caps.liquidity
    case INSUFFICIENT_CONFIDENCE => c.confidence < l.caps.confidence
    case _ => false
  }

  // ----- guideline gates -----

  /** The guideline with its two gates. Symbols are compared without their separators. */
  datatype Okf = Okf(bounds: Guideline, correlation: Correlation, turnoverEnabled: bool, forbidden: set<string>)

  datatype Correlation = Correlation(enabled: bool, riskOn: set<string>, blockers: set<string>)

  const FORBIDDEN_BY_DEFAULT := {"uncontrolled_scalping", "high_frequency_scalping"}

  /** The rule looks at a new long entry in a risk-on asset only. */
  predicate CorrelationApplies(r: Correlation, c: Conditions, t: Trade, s: Situation) {
    r.enabled && t.side != Selling && s.entering && !s.modifying && c.symbol in r.riskOn
    && (s.positions.Some? || !s.correlationKnown)
  }

  predicate CorrelationUnknown(s: Situation) { !s.correlationKnown || s.positions.None? }

  predicate AllBlockersLong(r: Correlation, positions: map<string, real>) {
    r.blockers != {} && forall x :: x in r.blockers ==> x in positions && positions[x] > 0.0
  }

  predicate TurnoverBlocks(o: Okf, c: Conditions, b: Book, s: Situation) {
    o.turnoverEnabled
    && ((s.style != "" && s.style in (if o.forbidden == {} then FORBIDDEN_BY_DEFAULT else o.forbidden))
        || b.tradesToday >= Or(o.bounds.trades, 8)
        || CoolingDown(c.bars, Or(o.bounds.cooldown, 5)))
  }

  predicate OkfBlocks(code: Code, o: Okf, c: Conditions, t: Trade, b: Book, s: Situation) {
    match code
    case CORRELATION_DATA_UNAVAILABLE => CorrelationApplies(o.correlation, c, t, s) && CorrelationUnknown(s)
    case CORRELATION_FILTER_BLOCK =>
      CorrelationApplies(o.correlation, c, t, s) && !CorrelationUnknown(s)
      && AllBlockersLong(o.correlation, s.positions.value)
    case LOW_TURNOVER_BLOCK => TurnoverBlocks(o, c, b, s)
    case _ => false
  }

  // ----- the decision -----

  /** The strategy is the one whose limits are merged; a request need not name one. */
  datatype Request = Request(
    trade: Trade, conditions: Conditions, book: Book, situation: Situation, strategy: Option<Strategy>)

  predicate SituationBlocks(code: Code, r: Request) {
    match code
    case KILL_SWITCH_ACTIVE => r.situation.killed || r.book.killed
    case TRADING_HALTED => r.book.halted
    case STALE_MARKET_DATA => r.conditions.stale
    case PAIR_NOT_ALLOWED => !r.conditions.listed
    case NO_VALID_MODEL => !r.conditions.hasModels
    case STRATEGY_DATA_UNAVAILABLE => r.strategy.None?
    case _ =>
      r.situation.memory == Some(code) && (code == FAILURE_MEMORY_UNAVAILABLE || code == FAILURE_MEMORY_MATCH_BLOCK)
  }

  predicate LimitBlocks(code: Code, l: Limits, r: Request) {
    TradeBlocks(code, l, r.trade, r.book) || BookBlocks(code, l, r.conditions, r.book) || SituationBlocks(code, r)
  }

  predicate Blocks(code: Code, l: Limits, o: Option<Okf>, r: Request) {
    LimitBlocks(code, l, r) || (o.Some? && OkfBlocks(code, o.value, r.conditions, r.trade, r.book, r.situation))
  }

  /** The limits a request is judged by. */
  function LimitsFor(g: Global, s: Option<Strategy>, o: Option<Okf>): Limits {
    Merge(g, s, if o.Some? then Some(o.value.bounds) else None)
  }

  ghost predicate Approves(g: Global, o: Option<Okf>, r: Request) {
    forall code :: !Blocks(code, LimitsFor(g, r.strategy, o), o, r)
  }

  /** The largest notional the engine would allow: by position, by trade, and by risk at the stop. */
  function MaxNotional(l: Limits, t: Trade, equity: real): real {
    var sized := MaxSize(l.caps, equity);
    if t.entry > 0.0 && Distance(t) > 0.0 then Min(sized, AtRisk(equity, l.risk, Distance(t), t.entry)) else sized
  }

  function MaxSize(c: Caps, equity: real): real { Min(equity * c.position, equity * c.trade) }

  /** The notional that loses a share `risk` of equity when the stop is hit. */
  function AtRisk(equity: real, risk: real, distance: real, entry: real): real
    requires distance > 0.0
  {
    BudgetSize(equity, risk, distance) * entry
  }

  /** The size that loses a share `risk` of equity over a distance. */
  function BudgetSize(equity: real, risk: real, distance: real): real
    requires distance > 0.0
  {
    equity * risk / distance
  }

  function MaxQuantity(l: Limits, t: Trade, equity: real): real {
    if t.entry > 0.0 then MaxNotional(l, t, equity) / t.entry else 0.0
  }

  // ----- tightening is monotone -----

  lemma StricterTradeBlocks(code: Code, a: Limits, b: Limits, t: Trade, k: Book)
    requires Stricter(a, b) && TradeBlocks(code, b, t, k)
    ensures TradeBlocks(code, a, t, k)
  {
    ScaleLeq(a.caps.position, b.caps.position, Equity(k));
    ScaleLeq(a.caps.trade, b.caps.trade, Equity(k));
    ScaleLeq(a.caps.exposure, b.caps.exposure, Equity(k));
  }

  /** Stricter limits block on every code that looser limits block on. */
  lemma StricterBlocksMore(a: Limits, b: Limits, r: Request, code: Code)
    requires Stricter(a, b) && LimitBlocks(code, b, r)
    ensures LimitBlocks(code, a, r)
  {
    if TradeBlocks(code, b, r.trade, r.book) {
      StricterTradeBlocks(code, a, b, r.trade, r.book);
    }
  }

  /** Limits from a stricter configuration, with or without a guideline, approve no request that
      the looser configuration without one refuses. */
  lemma ApprovalIsMonotone(tight: Global, loose: Global, o: Option<Okf>, r: Request)
    requires Stricter(Merge(tight, r.strategy, None), Merge(loose, r.strategy, None)) && Approves(tight, o, r)
    ensures Approves(loose, None, r)
  {
    var s := r.strategy;
    var a, b := LimitsFor(tight, s, o), LimitsFor(loose, s, None);
    if o.Some? {
      GuidelinesOnlyTighten(tight, s, o.value.bounds);
    }
    forall code
      ensures !Blocks(code, b, None, r)
    {
      assert !Blocks(code, a, o, r);
      if LimitBlocks(code, b, r) {
        StricterBlocksMore(a, b, r, code);
      }
    }
  }

  /** Whatever the guideline says, what is approved with it is approved without it; and an engine
      that took a guideline over into its configuration approves nothing that the bare one would
      not. */
  lemma GuidelineNeverLoosens(g: Global, guide: Guide, o: Option<Okf>, r: Request)
    ensures Approves(g, o, r) ==> Approves(g, None, r)
    ensures Approves(Applied(guide, g), o, r) ==> Approves(g, None, r)
  {
    if Approves(g, o, r) {
      ApprovalIsMonotone(g, g, o, r);
    }
    ApplyingTwiceIsApplyingOnce(guide, g, r.strategy);
    if Approves(Applied(guide, g), o, r) {
      ApprovalIsMonotone(Applied(guide, g), g, o, r);
    }
  }

  lemma ScaleDivided(x: real, y: real, d: real, e: real)
    requires x <= y && d > 0.0 && e > 0.0
    ensures x / d * e <= y / d * e && x / d <= y / d
  {
    ScaleLeq(x, y, 1.0 / d);
    assert x / d == x * (1.0 / d) && y / d == y * (1.0 / d);
    ScaleLeq(x / d, y / d, e);
  }

  lemma AtRiskIsMonotone(x: real, y: real, d: real, e: real, equity: real)
    requires x <= y && d > 0.0 && e > 0.0 && 0.0 <= equity
    ensures AtRisk(equity, x, d, e) <= AtRisk(equity, y, d, e)
  {
    ScaleLeq(x, y, equity);
    ScaleDivided(equity * x, equity * y, d, e);
  }

  lemma MaxSizeIsMonotone(a: Caps, b: Caps, equity: real)
    requires CapsStricter(a, b) && 0.0 <= equity
    ensures MaxSize(a, equity) <= MaxSize(b, equity)
  {
    ScaleLeq(a.position, b.position, equity);
    ScaleLeq(a.trade, b.trade, equity);
  }

  lemma AllowedNotionalIsMonotone(a: Limits, b: Limits, t: Trade, equity: real)
    requires Stricter(a, b) && 0.0 <= equity
    ensures MaxNotional(a, t, equity) <= MaxNotional(b, t, equity)
  {
    MaxSizeIsMonotone(a.caps, b.caps, equity);
    if t.entry > 0.0 && Distance(t) > 0.0 {
      AtRiskIsMonotone(a.risk, b.risk, Distance(t), t.entry, equity);
    }
  }

  /** The quantity the engine allows never grows as limits tighten. */
  lemma AllowedQuantityIsMonotone(a: Limits, b: Limits, t: Trade, equity: real)
    requires Stricter(a, b) && 0.0 <= equity
    ensures MaxQuantity(a, t, equity) <= MaxQuantity(b, t, equity)
  {
    AllowedNotionalIsMonotone(a, b, t, equity);
    if t.entry > 0.0 {
      ScaleDivided(MaxNotional(a, t, equity), MaxNotional(b, t, equity), t.entry, 1.0);
    }
  }

  // ----- the program's evaluation -----

  datatype Decision = Decision(approved: bool, reasons: set<Code>, maxQuantity: real, maxNotional: real, atRisk: real)

  const BRACKET_CODES := {INVALID_TRADE, STOP_LOSS_REQUIRED, INVALID_STOP, RISK_REWARD_TOO_LOW}

  function When(blocked: bool, code: Code): set<Code> { if blocked then {code} else {} }

  class RiskEngine {
    const config: Global
    const okf: Option<Okf>

    /** Takes a guideline over into the configuration when there is one. */
    constructor (system: Global, guide: Option<Guide>, correlation: Correlation,
                 turnoverEnabled: bool, forbidden: set<string>)
      ensures config == if guide.Some? then Applied(guide.value, system) else system
      ensures okf == if guide.None? then None
                     else Some(Okf(Resolve(guide.value, system), correlation, turnoverEnabled, forbidden))
    {
      config := if guide.Some? then Applied(guide.value, system) else system;
      okf := if guide.Some? then Some(Okf(Resolve(guide.value, system), correlation, turnoverEnabled, forbidden))
             else None;
    }

    /** The guideline in force: the caller's, or else the engine's own. */
    function Guiding(context: Option<Okf>): Option<Okf> { if context.Some? then context else okf }

    /** Approves exactly when nothing blocks, and otherwise lists exactly the codes that do. */
    method Evaluate(r: Request, context: Option<Okf>) returns (d: Decision)
      ensures d.approved <==> Approves(config, Guiding(context), r)
      ensures forall code :: code in d.reasons <==>
        Blocks(code, LimitsFor(config, r.strategy, Guiding(context)), Guiding(context), r)
      ensures d.maxNotional == MaxNotional(LimitsFor(config, r.strategy, Guiding(context)), r.trade, Equity(r.book))
      ensures d.maxQuantity == MaxQuantity(LimitsFor(config, r.strategy, Guiding(context)), r.trade, Equity(r.book))
      ensures d.atRisk == if r.trade.stop.Some? then Distance(r.trade) * r.trade.quantity else 0.0
    {
      var o := Guiding(context);
      var l, conflicts := MergeEffectiveLimits(config, r.strategy, if o.Some? then Some(o.value.bounds) else None);
      var reasons := Judge(l, o, r);
      var notional, quantity := Size(l, r.trade, Equity(r.book));
      d := Decision(reasons == {}, reasons, quantity, notional,
                    if r.trade.stop.Some? then Abs(r.trade.entry - r.trade.stop.value) * r.trade.quantity else 0.0);
      if reasons == {} {
        forall code
          ensures !Blocks(code, l, o, r)
        {
          assert code !in reasons;
        }
      } else {
        ghost var code :| code in reasons;
        assert Blocks(code, l, o, r);
      }
      assert l == LimitsFor(config, r.strategy, o);
    }

    method Judge(l: Limits, o: Option<Okf>, r: Request) returns (reasons: set<Code>)
      ensures forall code :: code in reasons <==> Blocks(code, l, o, r)
    {
      reasons := SituationReasons(r);
      reasons := TradeReasons(l, r.trade, r.book, reasons);
      reasons := BookReasons(l, r.conditions, r.book, reasons);
      if o.Some? {
        reasons := OkfReasons(o.value, r, reasons);
      }
    }

    /** The allowance, narrowed step by step. */
    method Size(l: Limits, t: Trade, equity: real) returns (notional: real, quantity: real)
      ensures notional == MaxNotional(l, t, equity) && quantity == MaxQuantity(l, t, equity)
    {
      notional := MaxSize(l.caps, equity);
      if t.entry > 0.0 && t.stop.Some? {
        var distance := Abs(t.entry - t.stop.value);
        if distance > 0.0 {
          notional := Min(notional, AtRisk(equity, l.risk, distance, t.entry));
        }
      }
      quantity := if t.entry > 0.0 then notional / t.entry else 0.0;
    }

    method SituationReasons(r: Request) returns (reasons: set<Code>)
      ensures forall x :: x in reasons <==> SituationBlocks(x, r)
    {
      var c, s := r.conditions, r.situation;
      reasons := When(s.killed || r.book.killed, KILL_SWITCH_ACTIVE);
      reasons := reasons + When(r.book.halted, TRADING_HALTED);
      reasons := reasons + When(c.stale, STALE_MARKET_DATA);
      reasons := reasons + When(!c.listed, PAIR_NOT_ALLOWED);
      reasons := reasons + When(!c.hasModels, NO_VALID_MODEL);
      reasons := reasons + When(r.strategy.None?, STRATEGY_DATA_UNAVAILABLE);
      reasons := reasons + When(s.memory == Some(FAILURE_MEMORY_UNAVAILABLE), FAILURE_MEMORY_UNAVAILABLE);
      reasons := reasons + When(s.memory == Some(FAILURE_MEMORY_MATCH_BLOCK), FAILURE_MEMORY_MATCH_BLOCK);
    }

    method TradeReasons(l: Limits, t: Trade, b: Book, before: set<Code>) returns (reasons: set<Code>)
      ensures forall x :: x in reasons <==> x in before || TradeBlocks(x, l, t, b)
    {
      reasons := BracketReasons(l, t, b, before);
      var equity := Equity(b);
      reasons := reasons + When(t.notional > equity * l.caps.position + CASH_SLACK, POSITION_LIMIT_EXCEEDED);
      reasons := reasons + When(t.notional > equity * l.caps.trade + CASH_SLACK, TRADE_SIZE_LIMIT_EXCEEDED);
      reasons := reasons + When(b.exposure + t.notional > equity * l.caps.exposure + CASH_SLACK,
                                EXPOSURE_LIMIT_EXCEEDED);
      reasons := reasons + When(t.notional > b.cash + CASH_SLACK && t.side == Buying, INSUFFICIENT_CASH);
    }

    /** The codes about the trade's figures, its stop and its reward. */
    method BracketReasons(l: Limits, t: Trade, b: Book, before: set<Code>) returns (reasons: set<Code>)
      ensures forall x :: x in reasons <==> x in before || (x in BRACKET_CODES && TradeBlocks(x, l, t, b))
    {
      reasons := before + When(t.quantity <= 0.0 || t.notional <= 0.0 || t.entry <= 0.0, INVALID_TRADE);
      if l.caps.requireStop && t.stop.None? {
        reasons := reasons + When(true, STOP_LOSS_REQUIRED);
      } else if t.stop.Some? {
        reasons := reasons + When(t.side == Buying && t.stop.value >= t.entry, INVALID_STOP);
        reasons := reasons + When(t.side == Selling && t.stop.value <= t.entry, INVALID_STOP);
      }
      reasons := reasons + When(RewardTooLow(l, t), RISK_REWARD_TOO_LOW);
    }

    method BookReasons(l: Limits, c: Conditions, b: Book, before: set<Code>) returns (reasons: set<Code>)
      ensures forall x :: x in reasons <==> x in before || BookBlocks(x, l, c, b)
    {
      var equity := Equity(b);
      reasons := before + When(equity > 0.0 && b.dailyPnl < 0.0 && Abs(b.dailyPnl) / equity >= l.daily,
                               DAILY_LOSS_LIMIT);
      reasons := reasons + When(b.drawdown >= l.drawdown, DRAWDOWN_LIMIT);
      reasons := reasons + When(b.tradesToday >= l.trades, TRADE_COUNT_LIMIT);
      reasons := reasons + When(CoolingDown(c.bars, l.cooldown), COOLDOWN_ACTIVE);
      reasons := reasons + When(c.slippage > l.caps.slippage, SLIPPAGE_LIMIT);
      reasons := reasons + When(c.leverage > l.caps.leverage, LEVERAGE_LIMIT);
      reasons := reasons + When(c.liquidity.Some? && c.liquidity.value < l.caps.liquidity, INSUFFICIENT_LIQUIDITY);
      reasons := reasons + When(c.confidence < l.caps.confidence, INSUFFICIENT_CONFIDENCE);
    }

    method OkfReasons(o: Okf, r: Request, before: set<Code>) returns (reasons: set<Code>)
      ensures forall x :: x in reasons <==>
        x in before || OkfBlocks(x, o, r.conditions, r.trade, r.book, r.situation)
    {
      var s := r.situation;
      reasons := before;
      if CorrelationApplies(o.correlation, r.conditions, r.trade, s) {
        if CorrelationUnknown(s) {
          reasons := reasons + When(true, CORRELATION_DATA_UNAVAILABLE);
        } else {
          reasons := reasons + When(AllBlockersLong(o.correlation, s.positions.value), CORRELATION_FILTER_BLOCK);
        }
      }
      reasons := reasons + When(TurnoverBlocks(o, r.conditions, r.book, s), LOW_TURNOVER_BLOCK);
    }
  }
}
