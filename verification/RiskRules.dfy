/** What the risk engine lets through, condition by condition, and how a worse account tightens it. */
module RiskRules {
  import opened Prelude
  import opened RiskLimits
  import opened RiskGate

  /** A trade in itself: positive, with its stop on the losing side where it has or needs one, and with
      a reward that is worth its risk. */
  predicate TradeFits(l: Limits, t: Trade) {
    && 0.0 < t.quantity && 0.0 < t.notional && 0.0 < t.entry
    && (l.caps.requireStop ==> t.stop.Some?)
    && (t.stop.Some? && t.side == Buying ==> t.stop.value < t.entry)
    && (t.stop.Some? && t.side == Selling ==> t.entry < t.stop.value)
    && (t.stop.Some? && t.target.Some? && t.stop.value != t.entry ==>
          l.riskReward <= Abs(t.target.value - t.entry) / Abs(t.entry - t.stop.value))
  }

  /** A trade beside the account: within the caps on a position, a trade and the whole exposure, and
      paid for. */
  predicate SizeFits(c: Caps, t: Trade, b: Book) {
    var equity := if b.equity < 0.0 then 0.0 else b.equity;
    && t.notional <= equity * c.position + CASH_SLACK
    && t.notional <= equity * c.trade + CASH_SLACK
    && b.exposure + t.notional <= equity * c.exposure + CASH_SLACK
    && (t.side == Buying ==> t.notional <= b.cash + CASH_SLACK)
  }

  /** The day so far: its loss, the drawdown and the count of trades below their limits. */
  predicate DayFits(l: Limits, b: Book) {
    && (0.0 < b.equity && b.dailyPnl < 0.0 ==> -b.dailyPnl / b.equity < l.daily)
    && b.drawdown < l.drawdown && b.tradesToday < l.trades
  }

  /** The market and the proposal. */
  predicate ConditionsFit(l: Limits, c: Conditions) {
    && (c.bars.Some? && 0 < l.cooldown ==> l.cooldown <= c.bars.value)
    && c.slippage <= l.caps.slippage && c.leverage <= l.caps.leverage
    && (c.liquidity.Some? ==> l.caps.liquidity <= c.liquidity.value)
    && l.caps.confidence <= c.confidence && !c.stale && c.listed && c.hasModels
  }

  /** The switches, the strategy and the memory of failures. */
  predicate SituationFits(r: Request) {
    && !r.situation.killed && !r.book.killed && !r.book.halted && r.strategy.Some?
    && r.situation.memory != Some(FAILURE_MEMORY_UNAVAILABLE) && r.situation.memory != Some(FAILURE_MEMORY_MATCH_BLOCK)
  }

  predicate Fits(l: Limits, r: Request) {
    TradeFits(l, r.trade) && SizeFits(l.caps, r.trade, r.book) && DayFits(l, r.book) && ConditionsFit(l, r.conditions)
    && SituationFits(r)
  }

  lemma TradeFitsIff(l: Limits, t: Trade, b: Book)
    ensures TradeFits(l, t) && SizeFits(l.caps, t, b) <==> forall code :: !TradeBlocks(code, l, t, b)
  {
    if forall code :: !TradeBlocks(code, l, t, b) {
      assert !TradeBlocks(INVALID_TRADE, l, t, b) && !TradeBlocks(STOP_LOSS_REQUIRED, l, t, b);
      assert !TradeBlocks(INVALID_STOP, l, t, b) && !TradeBlocks(RISK_REWARD_TOO_LOW, l, t, b);
      assert !TradeBlocks(POSITION_LIMIT_EXCEEDED, l, t, b) && !TradeBlocks(TRADE_SIZE_LIMIT_EXCEEDED, l, t, b);
      assert !TradeBlocks(EXPOSURE_LIMIT_EXCEEDED, l, t, b) && !TradeBlocks(INSUFFICIENT_CASH, l, t, b);
    }
  }

  lemma DayFitsIff(l: Limits, c: Conditions, b: Book)
    ensures (forall code :: !BookBlocks(code, l, c, b))
      <==> DayFits(l, b) && ConditionsFit(l, c.(stale := false, listed := true, hasModels := true))
  {
    if forall code :: !BookBlocks(code, l, c, b) {
      assert !BookBlocks(DAILY_LOSS_LIMIT, l, c, b) && !BookBlocks(DRAWDOWN_LIMIT, l, c, b);
      assert !BookBlocks(TRADE_COUNT_LIMIT, l, c, b) && !BookBlocks(COOLDOWN_ACTIVE, l, c, b);
      assert !BookBlocks(SLIPPAGE_LIMIT, l, c, b) && !BookBlocks(LEVERAGE_LIMIT, l, c, b);
      assert !BookBlocks(INSUFFICIENT_LIQUIDITY, l, c, b) && !BookBlocks(INSUFFICIENT_CONFIDENCE, l, c, b);
    }
  }

  lemma SituationFitsIff(r: Request)
    ensures (forall code :: !SituationBlocks(code, r))
      <==> SituationFits(r) && !r.conditions.stale && r.conditions.listed && r.conditions.hasModels
  {
    if forall code :: !SituationBlocks(code, r) {
      assert !SituationBlocks(KILL_SWITCH_ACTIVE, r) && !SituationBlocks(TRADING_HALTED, r);
      assert !SituationBlocks(STALE_MARKET_DATA, r) && !SituationBlocks(PAIR_NOT_ALLOWED, r);
      assert !SituationBlocks(NO_VALID_MODEL, r) && !SituationBlocks(STRATEGY_DATA_UNAVAILABLE, r);
      assert !SituationBlocks(FAILURE_MEMORY_UNAVAILABLE, r) && !SituationBlocks(FAILURE_MEMORY_MATCH_BLOCK, r);
    }
  }

  lemma FitsIff(l: Limits, r: Request)
    ensures Fits(l, r) <==> forall code :: !LimitBlocks(code, l, r)
  {
    TradeFitsIff(l, r.trade, r.book);
    DayFitsIff(l, r.conditions, r.book);
    SituationFitsIff(r);
    if forall code :: !LimitBlocks(code, l, r) {
      forall code
        ensures !TradeBlocks(code, l, r.trade, r.book) && !BookBlocks(code, l, r.conditions, r.book)
        ensures !SituationBlocks(code, r)
      {
        assert !LimitBlocks(code, l, r);
      }
    }
  }

  /** Without a guideline a request is approved exactly when it fits all of this. */
  lemma ApprovesIff(g: Global, r: Request)
    ensures Approves(g, None, r) <==> Fits(LimitsFor(g, r.strategy, None), r)
  {
    var l := LimitsFor(g, r.strategy, None);
    FitsIff(l, r);
    assert forall code :: Blocks(code, l, None, r) <==> LimitBlocks(code, l, r);
  }

  // ----- guidelines -----

  /** A guideline's correlation rule: no new long entry in a risk-on asset while every asset that blocks
      it is held long, or while correlations are not known. */
  predicate CorrelationFits(k: Correlation, c: Conditions, t: Trade, s: Situation) {
    k.enabled && t.side != Selling && s.entering && !s.modifying && c.symbol in k.riskOn ==>
      if s.correlationKnown
      then s.positions.Some? && k.blockers != {} ==>
             exists x :: x in k.blockers && !(x in s.positions.value && 0.0 < s.positions.value[x])
      else false
  }

  /** Its turnover rule: no style that is barred, and the guideline's own count and cooldown, or eight
      trades and five bars. */
  predicate TurnoverFits(o: Okf, c: Conditions, b: Book, s: Situation) {
    o.turnoverEnabled ==>
      && (s.style == "" || s.style !in (if o.forbidden == {} then {"uncontrolled_scalping", "high_frequency_scalping"}
                                        else o.forbidden))
      && b.tradesToday < (if o.bounds.trades.Some? then o.bounds.trades.value else 8)
      && var cooldown := if o.bounds.cooldown.Some? then o.bounds.cooldown.value else 5;
         c.bars.Some? && 0 < cooldown ==> cooldown <= c.bars.value
  }

  lemma GuidelineFitsIff(o: Okf, r: Request)
    ensures (forall code :: !OkfBlocks(code, o, r.conditions, r.trade, r.book, r.situation))
      <==> CorrelationFits(o.correlation, r.conditions, r.trade, r.situation)
           && TurnoverFits(o, r.conditions, r.book, r.situation)
  {
    if forall code :: !OkfBlocks(code, o, r.conditions, r.trade, r.book, r.situation) {
      assert !OkfBlocks(CORRELATION_DATA_UNAVAILABLE, o, r.conditions, r.trade, r.book, r.situation);
      assert !OkfBlocks(CORRELATION_FILTER_BLOCK, o, r.conditions, r.trade, r.book, r.situation);
      assert !OkfBlocks(LOW_TURNOVER_BLOCK, o, r.conditions, r.trade, r.book, r.situation);
    }
  }

  /** With a guideline it is approved exactly when it fits the narrower limits and both rules. */
  lemma ApprovesUnderIff(g: Global, o: Okf, r: Request)
    ensures Approves(g, Some(o), r)
      <==> Fits(LimitsFor(g, r.strategy, Some(o)), r)
           && CorrelationFits(o.correlation, r.conditions, r.trade, r.situation)
           && TurnoverFits(o, r.conditions, r.book, r.situation)
  {
    var l := LimitsFor(g, r.strategy, Some(o));
    FitsIff(l, r);
    GuidelineFitsIff(o, r);
    if Approves(g, Some(o), r) {
      forall code
        ensures !LimitBlocks(code, l, r) && !OkfBlocks(code, o, r.conditions, r.trade, r.book, r.situation)
      {
        assert !Blocks(code, l, Some(o), r);
      }
    }
  }

  // ----- a worse account -----

  /** The same equity with less cash, more exposure, a worse day, a deeper drawdown, more trades, or the
      switches on. */
  predicate Worse(a: Book, b: Book) {
    && b.equity == a.equity && b.cash <= a.cash && a.exposure <= b.exposure && b.dailyPnl <= a.dailyPnl
    && a.drawdown <= b.drawdown && a.tradesToday <= b.tradesToday && (a.killed ==> b.killed) && (a.halted ==> b.halted)
  }

  /** What blocks a request blocks it on every worse account. */
  lemma WorseBlocksMore(l: Limits, o: Option<Okf>, r: Request, b: Book, code: Code)
    requires Worse(r.book, b) && Blocks(code, l, o, r)
    ensures Blocks(code, l, o, r.(book := b))
  {
    if code == DAILY_LOSS_LIMIT && b.equity > 0.0 {
      LossShare(-r.book.dailyPnl, -b.dailyPnl, b.equity);
    }
  }

  lemma LossShare(x: real, y: real, n: real)
    requires x <= y && 0.0 < n
    ensures x / n <= y / n
  {
  }
}
