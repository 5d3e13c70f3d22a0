/** The backtest's bar loop: a price path through the paper exchange, a decision on closed
    bars, and what it means that nothing looks ahead. */
module Backtest {
  import opened Prelude
  import opened Candles
  import Costs
  import opened Orders
  import Portfolio
  import opened PaperExchange
  import opened Signals

  /** Bars before the first decision. */
  const WARMUP := 30

  datatype Plan = Plan(
    symbol: string, direction: Direction, entry: real, quantity: real, stop: real, target: real, model: string)

  datatype Point = Point(timestamp: int, equity: real, cash: real, drawdown: real, dailyPnl: real)

  /** One backtest. `comply` stands for the kill switch, halt and compliance checks a plan passes
      before the portfolio is looked at, `risk` for the risk engine that is shown a snapshot, and
      `settle` for what the engine notes of an entry that filled, the day's turnover among it: any
      functions of the engine's own state. `oneR` marks the strategy whose positions move to
      break-even and exit in part at one unit of risk. */
  datatype Setup<!E> = Setup(
    venue: Venue, symbol: string, strategy: Strategy, capital: real, guarded: bool, oneR: bool, engine: E,
    comply: (E, bool, Plan) -> (E, bool), risk: (E, bool, Portfolio.Snapshot, Plan) -> (E, bool),
    settle: (E, Plan) -> E)

  // ----- look-ahead guard -----

  /** Some candle the decision uses is stamped after the bar it is made at. */
  predicate Violates(used: seq<Candle>, limit: int) {
    exists i :: 0 <= i < |used| && used[i].timestamp > limit
  }

  predicate Sorted(candles: seq<Candle>) {
    forall i, j :: 0 <= i < j < |candles| ==> candles[i].timestamp <= candles[j].timestamp
  }

  // ----- from signal to order -----

  /** A missing or zero protective price falls back on a fixed share of the entry. */
  function OrElse(p: Option<real>, other: real): real {
    if p.Some? && p.value != 0.0 then p.value else other
  }

  function PlanFor(capital: real, symbol: string, s: Signal): Plan {
    var stop := OrElse(s.stop, if s.direction == LONG then s.entry * 0.98 else s.entry * 1.02);
    var target := OrElse(s.target, if s.direction == LONG then s.entry * 1.06 else s.entry * 0.94);
    Plan(symbol, s.direction, s.entry, PlanQuantity(capital, s.entry, Abs(s.entry - stop)), stop, target, s.model)
  }

  /** Half a percent of capital at risk, capped at two percent of capital in value. */
  function PlanQuantity(capital: real, entry: real, riskPerUnit: real): real {
    var sized := if riskPerUnit > 0.0 then Max(capital * 0.005 / riskPerUnit, 0.0) else 0.0;
    if sized * entry > capital * 0.02 && entry > 0.0 then capital * 0.02 / entry else sized
  }

  function OrderFor(p: Plan, asset: Costs.AssetClass): Order {
    Order(None, "", p.symbol, asset, if p.direction == LONG then Costs.BUY else Costs.SELL, MARKET,
          p.quantity, 0.0, None, None, CREATED, None, None, 0.0, 0.0, "", Some(p.stop), Some(p.target))
  }

  /** Donchian entries trail by twice the range of their bar. */
  function TrailFor(c: Candle): Trailing.TrailingRule {
    var range := c.high - c.low;
    Trailing.TrailingRule(Trailing.ATR, if range != 0.0 then range else c.close * 0.01, 2.0, 0.02, 0.0, false)
  }

  function TrailingRules(c: Candle): Rules { Rules(false, None, Some(TrailFor(c)), None) }

  const ONE_R_RULES := Rules(true, Some(50.0), None, None)

  datatype Executed = Executed(state: State, filled: bool, raised: bool)

  /** An approved plan becomes a market order at the close. */
  function Execute(v: Venue, s: State, p: Plan, close: real): Executed {
    var priced := Priced(s, p.symbol, close);
    var r := CreateOrder(v, priced, OrderFor(p, AssetOf(v, p.symbol)), Some(close));
    var id := Generated(priced.orderSeq + 1);
    Executed(r.state, id in r.state.orders && r.state.orders[id].status == FILLED, r.raised)
  }

  function WithRules(s: State, symbol: string, r: Rules): State { s.(rules := Configured(s.rules, symbol, r)) }

  /** The rules a filled entry puts on its position. */
  function EntryRules(s: State, symbol: string, oneR: bool, model: string, c: Candle): State {
    var t := if oneR then WithRules(s, symbol, ONE_R_RULES) else s;
    if model == "DONCHIAN20" then WithRules(t, symbol, TrailingRules(c)) else t
  }

  // ----- the bar loop -----

  datatype Progress<E> = Progress(
    engine: E, exchange: State, curve: seq<Point>, rejections: nat, entries: seq<Direction>, raised: bool)

  /** Open, high, low, close. */
  function PricePath(v: Venue, s: State, symbol: string, c: Candle): Outcome {
    var r1 := PriceUpdate(v, s, symbol, c.open);
    if r1.raised then r1
    else
      var r2 := PriceUpdate(v, r1.state, symbol, c.high);
      if r2.raised then r2
      else
        var r3 := PriceUpdate(v, r2.state, symbol, c.low);
        if r3.raised then r3 else PriceUpdate(v, r3.state, symbol, c.close)
  }

  ghost function Snapped(s: State): State {
    s.(account := Portfolio.Snap(s.account, s.feed.prices).0)
  }

  /** A plan that passed every gate: rejected by the exchange, or filled and put under its rules. */
  ghost function Placed<E>(p: Setup<E>, b: Progress<E>, plan: Plan, c: Candle): Progress<E> {
    var x := Execute(p.venue, b.exchange, plan, c.close);
    if x.raised then b.(exchange := x.state, raised := true)
    else if !x.filled then b.(exchange := Snapped(x.state), rejections := b.rejections + 1)
    else
      b.(engine := p.settle(b.engine, plan), exchange := Snapped(EntryRules(x.state, p.symbol, p.oneR, plan.model, c)),
         entries := b.entries + [plan.direction])
  }

  /** A plan that complies: shown to the risk engine with a snapshot, and rejected or placed. */
  ghost function Judged<E>(p: Setup<E>, b: Progress<E>, halted: bool, plan: Plan, c: Candle): (r: Progress<E>)
    ensures r.curve == b.curve
  {
    var snap := Portfolio.Snap(b.exchange.account, b.exchange.feed.prices).1;
    var (engine, approved) := p.risk(b.engine, halted, snap, plan);
    var seen := b.(engine := engine, exchange := Snapped(b.exchange));
    if !approved then seen.(rejections := b.rejections + 1) else Placed(p, seen, plan, c)
  }

  /** A signal acted upon: turned away by sizing, compliance or risk, or placed. */
  ghost function Acted<E>(p: Setup<E>, b: Progress<E>, signal: Signal, c: Candle): (r: Progress<E>)
    ensures r.curve == b.curve
  {
    var plan, halted := PlanFor(p.capital, p.symbol, signal), b.exchange.health.halted;
    if plan.quantity <= 0.0 then b.(rejections := b.rejections + 1)
    else
      var (engine, complies) := p.comply(b.engine, halted, plan);
      if !complies then b.(engine := engine, rejections := b.rejections + 1)
      else Judged(p, b.(engine := engine), halted, plan, c)
  }

  /** The snapshot that ends every bar. */
  ghost function Recorded<E>(b: Progress<E>, c: Candle): Progress<E> {
    var (account, snap) := Portfolio.Snap(b.exchange.account, b.exchange.feed.prices);
    b.(exchange := b.exchange.(account := account),
       curve := b.curve + [Point(c.timestamp, snap.equity, snap.cash, snap.drawdown, snap.dailyPnl)])
  }

  /** What the strategy decides at a bar; it is handed the whole series. */
  function Decision(s: Strategy, candles: seq<Candle>, index: nat): Signal
    requires s.Valid()
  {
    SignalFor(s, candles, index)
  }

  /** The part of a bar after its price path: an entry when warm and flat, then the snapshot. */
  ghost function BarEnd<E>(p: Setup<E>, b: Progress<E>, signal: Signal, c: Candle, warm: bool): Progress<E> {
    var acted := if warm && signal.direction != FLAT && p.symbol !in b.exchange.account.positions
                 then Acted(p, b, signal, c) else b;
    if acted.raised then acted else Recorded(acted, c)
  }

  /** One bar: the guard, the price path, the decision after the warm-up, the snapshot. */
  ghost function BarStep<E>(p: Setup<E>, b: Progress<E>, c: Candle, index: nat,
                            signal: Signal, barred: bool): (r: Progress<E>)
    requires !b.raised
    ensures b.curve <= r.curve && (!r.raised ==> |r.curve| == |b.curve| + 1)
  {
    if barred then b.(raised := true)
    else
      var path := PricePath(p.venue, b.exchange, p.symbol, c);
      var moved := b.(exchange := path.state);
      if path.raised then moved.(raised := true)
      else BarEnd(p, moved, signal, c, WARMUP <= index)
  }

  ghost function Start<E>(p: Setup<E>): Progress<E> {
    Progress(p.engine, Opened(p.capital), [], 0, [], false)
  }

  /** The state after the first `n` bars, each of which adds one point to the curve. The strategy
      is handed the whole series at every bar; an exception ends the run. */
  ghost function After<E>(p: Setup<E>, candles: seq<Candle>, n: nat): (r: Progress<E>)
    requires p.strategy.Valid() && n <= |candles|
    ensures !r.raised ==> |r.curve| == n
    decreases n, 2
  {
    if n == 0 then Start(p) else Continued(p, candles, n)
  }

  ghost function Continued<E>(p: Setup<E>, candles: seq<Candle>, n: nat): (r: Progress<E>)
    requires p.strategy.Valid() && 0 < n <= |candles|
    ensures !r.raised ==> |r.curve| == n
    decreases n, 1
  {
    var before := After(p, candles, n - 1);
    if before.raised then before else BarOf(p, candles, n)
  }

  /** The bar before position `n`, played from where the bars before it left off. */
  ghost function BarOf<E>(p: Setup<E>, candles: seq<Candle>, n: nat): (r: Progress<E>)
    requires p.strategy.Valid() && 0 < n <= |candles| && !After(p, candles, n - 1).raised
    ensures After(p, candles, n - 1).curve <= r.curve
    ensures !r.raised ==> |r.curve| == n
    decreases n, 0
  {
    BarStep(p, After(p, candles, n - 1), candles[n - 1], n - 1, Decision(p.strategy, candles, n - 1),
            p.guarded && Violates(candles[..n], candles[n - 1].timestamp))
  }

  // ----- causality -----

  /** Two series that agree up to and including a bar give the same candle, decision and guard
      verdict at it. */
  lemma BarAgrees(s: Strategy, xs: seq<Candle>, ys: seq<Candle>, k: nat)
    requires s.Valid() && 0 < k <= |xs| && k <= |ys| && xs[..k] == ys[..k]
    ensures xs[k - 1] == ys[k - 1]
    ensures Decision(s, xs, k - 1) == Decision(s, ys, k - 1)
  {
    ClosedPrefix(xs, ys, k, k - 1);
    assert xs[..k][k - 1] == ys[..k][k - 1];
  }

  lemma SameBar<E>(p: Setup<E>, xs: seq<Candle>, ys: seq<Candle>, k: nat)
    requires p.strategy.Valid() && 0 < k <= |xs| && k <= |ys| && xs[..k] == ys[..k]
    requires After(p, xs, k - 1) == After(p, ys, k - 1) && !After(p, xs, k - 1).raised
    ensures BarOf(p, xs, k) == BarOf(p, ys, k)
  {
    BarAgrees(p.strategy, xs, ys, k);
  }

  /** For every strategy, venue and engine gate: two series that agree on their first `k` bars
      give the same run after `k` bars, fills, orders, positions, rejections and curve alike. */
  lemma {:induction false} RunIsCausal<E>(p: Setup<E>, xs: seq<Candle>, ys: seq<Candle>, k: nat)
    requires p.strategy.Valid() && k <= |xs| && k <= |ys| && xs[..k] == ys[..k]
    ensures After(p, xs, k) == After(p, ys, k)
  {
    if k > 0 {
      assert xs[..k - 1] == xs[..k][..k - 1];
      assert ys[..k - 1] == ys[..k][..k - 1];
      RunIsCausal(p, xs, ys, k - 1);
      if !After(p, xs, k - 1).raised {
        SameBar(p, xs, ys, k);
      }
    }
  }

  lemma AfterAddsPoint<E>(p: Setup<E>, candles: seq<Candle>, n: nat)
    requires p.strategy.Valid() && 0 < n <= |candles|
    ensures After(p, candles, n - 1).curve <= After(p, candles, n).curve
    ensures After(p, candles, n - 1).raised ==> After(p, candles, n).raised
  {
    if !After(p, candles, n - 1).raised {
      assert After(p, candles, n - 1).curve <= BarOf(p, candles, n).curve;
    }
  }

  /** A bar rewrites no point of the curve. */
  lemma {:induction false} CurveGrows<E>(p: Setup<E>, candles: seq<Candle>, k: nat, n: nat)
    requires p.strategy.Valid() && k <= n <= |candles|
    ensures After(p, candles, k).curve <= After(p, candles, n).curve
    ensures After(p, candles, k).raised ==> After(p, candles, n).raised
    decreases n - k
  {
    if k < n {
      AfterAddsPoint(p, candles, k + 1);
      CurveGrows(p, candles, k + 1, n);
    }
  }

  /** So two full runs that both complete share the first `k` points of their curves whenever
      their series share the first `k` bars. */
  lemma EquityCurveIsCausal<E>(p: Setup<E>, xs: seq<Candle>, ys: seq<Candle>, k: nat)
    requires p.strategy.Valid() && k <= |xs| && k <= |ys| && xs[..k] == ys[..k]
    requires !After(p, xs, |xs|).raised && !After(p, ys, |ys|).raised
    ensures var shared := After(p, xs, k).curve;
            |shared| == k && shared <= After(p, xs, |xs|).curve && shared <= After(p, ys, |ys|).curve
  {
    RunIsCausal(p, xs, ys, k);
    CurveGrows(p, xs, k, |xs|);
    CurveGrows(p, ys, k, |ys|);
  }

  // ----- turnover -----

  function Notional(plan: Plan): real { plan.quantity * plan.entry }

  /** An engine that counts the value of its filled entries and of nothing else. */
  ghost predicate CountsTurnover<E(!new)>(p: Setup<E>, spent: E -> real) {
    && (forall e, halted, plan :: spent(p.comply(e, halted, plan).0) == spent(e))
    && (forall e, halted, snap, plan :: spent(p.risk(e, halted, snap, plan).0) == spent(e))
    && (forall e, plan :: spent(p.settle(e, plan)) == spent(e) + Notional(plan))
  }

  /** One whose compliance, too, approves none that would take the count above `cap`. */
  ghost predicate CapsTurnover<E(!new)>(p: Setup<E>, spent: E -> real, cap: real) {
    CountsTurnover(p, spent)
    && forall e, halted, plan :: p.comply(e, halted, plan).1 ==> spent(e) + Notional(plan) <= cap
  }

  lemma ActedKeepsCap<E(!new)>(p: Setup<E>, b: Progress<E>, signal: Signal, c: Candle, spent: E -> real, cap: real)
    requires CapsTurnover(p, spent, cap)
    ensures spent(Acted(p, b, signal, c).engine) <= Max(spent(b.engine), cap)
  {
    var plan, halted := PlanFor(p.capital, p.symbol, signal), b.exchange.health.halted;
    if plan.quantity > 0.0 {
      var engine := p.comply(b.engine, halted, plan).0;
      assert spent(engine) == spent(b.engine);
      JudgedCounts(p, b.(engine := engine), halted, plan, c, spent);
    }
  }

  /** A judged plan is counted exactly if it became an entry. */
  lemma JudgedCounts<E(!new)>(p: Setup<E>, b: Progress<E>, halted: bool, plan: Plan, c: Candle, spent: E -> real)
    requires CountsTurnover(p, spent)
    ensures var r := Judged(p, b, halted, plan, c);
            spent(r.engine) == spent(b.engine) + if |b.entries| < |r.entries| then Notional(plan) else 0.0
  {
    var snap := Portfolio.Snap(b.exchange.account, b.exchange.feed.prices).1;
    var after := p.risk(b.engine, halted, snap, plan).0;
    assert spent(after) == spent(b.engine);
    assert spent(p.settle(after, plan)) == spent(after) + Notional(plan);
  }

  /** Turnover checked before an entry and counted after it stays within the cap over the run. */
  lemma {:induction false} TurnoverIsCapped<E(!new)>(p: Setup<E>, candles: seq<Candle>, n: nat,
                                                     spent: E -> real, cap: real)
    requires p.strategy.Valid() && n <= |candles| && CapsTurnover(p, spent, cap)
    ensures spent(After(p, candles, n).engine) <= Max(spent(p.engine), cap)
  {
    if n > 0 {
      TurnoverIsCapped(p, candles, n - 1, spent, cap);
      var before := After(p, candles, n - 1);
      if before.raised {
        assert After(p, candles, n) == before;
      } else {
        assert After(p, candles, n) == BarOf(p, candles, n);
        BarKeepsCap(p, before, candles[n - 1], n - 1, Decision(p.strategy, candles, n - 1),
                    p.guarded && Violates(candles[..n], candles[n - 1].timestamp), spent, cap);
      }
    }
  }

  lemma BarKeepsCap<E(!new)>(p: Setup<E>, b: Progress<E>, c: Candle, index: nat, signal: Signal, barred: bool,
                             spent: E -> real, cap: real)
    requires !b.raised && CapsTurnover(p, spent, cap)
    ensures spent(BarStep(p, b, c, index, signal, barred).engine) <= Max(spent(b.engine), cap)
  {
    if !barred {
      var moved := b.(exchange := PricePath(p.venue, b.exchange, p.symbol, c).state);
      ActedKeepsCap(p, moved, signal, c, spent, cap);
    }
  }

  /** The value of the entry made at the bar before position `n`, if one was. */
  ghost function EntryValue<E>(p: Setup<E>, candles: seq<Candle>, n: nat): real
    requires p.strategy.Valid() && 0 < n <= |candles|
  {
    if |After(p, candles, n - 1).entries| < |After(p, candles, n).entries|
    then Notional(PlanFor(p.capital, p.symbol, Decision(p.strategy, candles, n - 1)))
    else 0.0
  }

  /** The value of all entries of the first `n` bars. */
  ghost function EnteredValue<E>(p: Setup<E>, candles: seq<Candle>, n: nat): real
    requires p.strategy.Valid() && n <= |candles|
  {
    if n == 0 then 0.0 else EnteredValue(p, candles, n - 1) + EntryValue(p, candles, n)
  }

  lemma ActedCounts<E(!new)>(p: Setup<E>, b: Progress<E>, signal: Signal, c: Candle, spent: E -> real)
    requires CountsTurnover(p, spent)
    ensures var r := Acted(p, b, signal, c);
            spent(r.engine) == spent(b.engine)
              + if |b.entries| < |r.entries| then Notional(PlanFor(p.capital, p.symbol, signal)) else 0.0
  {
    var plan, halted := PlanFor(p.capital, p.symbol, signal), b.exchange.health.halted;
    if plan.quantity > 0.0 {
      var engine := p.comply(b.engine, halted, plan).0;
      assert spent(engine) == spent(b.engine);
      JudgedCounts(p, b.(engine := engine), halted, plan, c, spent);
    }
  }

  lemma BarCounts<E(!new)>(p: Setup<E>, b: Progress<E>, c: Candle, index: nat, signal: Signal, barred: bool,
                           spent: E -> real)
    requires !b.raised && CountsTurnover(p, spent)
    ensures var r := BarStep(p, b, c, index, signal, barred);
            spent(r.engine) == spent(b.engine)
              + if |b.entries| < |r.entries| then Notional(PlanFor(p.capital, p.symbol, signal)) else 0.0
  {
    if !barred {
      var moved := b.(exchange := PricePath(p.venue, b.exchange, p.symbol, c).state);
      ActedCounts(p, moved, signal, c, spent);
    }
  }

  /** No filled entry goes uncounted, and nothing else is counted. */
  lemma {:induction false} TurnoverIsCounted<E(!new)>(p: Setup<E>, candles: seq<Candle>, n: nat, spent: E -> real)
    requires p.strategy.Valid() && n <= |candles| && CountsTurnover(p, spent)
    ensures spent(After(p, candles, n).engine) == spent(p.engine) + EnteredValue(p, candles, n)
  {
    if n > 0 {
      TurnoverIsCounted(p, candles, n - 1, spent);
      var before := After(p, candles, n - 1);
      if before.raised {
        assert After(p, candles, n) == before;
      } else {
        assert After(p, candles, n) == BarOf(p, candles, n);
        BarCounts(p, before, candles[n - 1], n - 1, Decision(p.strategy, candles, n - 1),
                  p.guarded && Violates(candles[..n], candles[n - 1].timestamp), spent);
      }
    }
  }

  /** The guard stays silent at every bar exactly when the series is sorted. */
  lemma GuardSilentIffSorted(candles: seq<Candle>)
    ensures (forall n :: 0 <= n < |candles| ==> !Violates(candles[..n + 1], candles[n].timestamp)) <==> Sorted(candles)
  {
    if Sorted(candles) {
      forall n | 0 <= n < |candles|
        ensures !Violates(candles[..n + 1], candles[n].timestamp)
      {
      }
    }
    if forall n :: 0 <= n < |candles| ==> !Violates(candles[..n + 1], candles[n].timestamp) {
      forall i, j | 0 <= i < j < |candles|
        ensures candles[i].timestamp <= candles[j].timestamp
      {
        assert !Violates(candles[..j + 1], candles[j].timestamp);
        assert candles[..j + 1][i] == candles[i];
      }
    }
  }
}
