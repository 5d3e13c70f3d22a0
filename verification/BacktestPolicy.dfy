/** The backtest under the program's own compliance policy: the engine state is the day's turnover,
    checked before an entry and counted after its fill. */
module BacktestPolicy {
  import opened Prelude
  import opened Candles
  import Costs
  import Portfolio
  import opened PaperExchange
  import opened Signals
  import opened Backtest
  import opened Compliance

  /** What else decides in a backtest: the strategy's id, the kill switch, the trading mode, and the
      risk engine, which keeps no state of its own. */
  datatype Desk = Desk(
    config: Config, id: string, asset: Costs.AssetClass, paper: bool, killed: bool,
    judge: (bool, Portfolio.Snapshot, Plan) -> bool)

  predicate Complies(k: Desk, turnover: real, halted: bool, plan: Plan) {
    k.paper && !k.killed && !halted
    && Approves(k.config, Query(k.paper, k.id, k.asset, Notional(plan), turnover))
  }

  /** The engine as the program builds it for a backtest, with no turnover yet. */
  function DeskSetup(k: Desk, v: Venue, symbol: string, s: Strategy,
                     capital: real, guarded: bool, oneR: bool): Setup<real> {
    Setup(v, symbol, s, capital, guarded, oneR, 0.0,
          (t: real, halted: bool, plan: Plan) => (t, Complies(k, t, halted, plan)),
          (t: real, halted: bool, snap: Portfolio.Snapshot, plan: Plan) => (t, k.judge(halted, snap, plan)),
          (t: real, plan: Plan) => t + Notional(plan))
  }

  lemma DeskCapsTurnover(k: Desk, v: Venue, symbol: string, s: Strategy, capital: real, guarded: bool, oneR: bool)
    requires k.config.enabled
    ensures CapsTurnover(DeskSetup(k, v, symbol, s, capital, guarded, oneR), (t: real) => t, k.config.maxTurnover)
  {
    forall t, halted, plan | Complies(k, t, halted, plan)
      ensures t + Notional(plan) <= k.config.maxTurnover
    {
      assert !Blocks(k.config, TURNOVER_LIMIT, Query(k.paper, k.id, k.asset, Notional(plan), t));
    }
  }

  /** Over a whole backtest with the policy switched on, turnover is the value of the entries made,
      and never exceeds its limit, or nothing where the limit is negative. */
  lemma TurnoverStaysWithinLimit(k: Desk, v: Venue, symbol: string, s: Strategy, capital: real, guarded: bool,
                                 oneR: bool, candles: seq<Candle>, n: nat)
    requires s.Valid() && n <= |candles| && k.config.enabled
    ensures var p := DeskSetup(k, v, symbol, s, capital, guarded, oneR);
            && After(p, candles, n).engine <= Max(0.0, k.config.maxTurnover)
            && After(p, candles, n).engine == EnteredValue(p, candles, n)
  {
    var p, spent := DeskSetup(k, v, symbol, s, capital, guarded, oneR), (t: real) => t;
    DeskCapsTurnover(k, v, symbol, s, capital, guarded, oneR);
    TurnoverIsCapped(p, candles, n, spent, k.config.maxTurnover);
    TurnoverIsCounted(p, candles, n, spent);
  }
}
