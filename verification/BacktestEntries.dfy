/** When a backtest enters, and what it holds then. */
module BacktestEntries {
  import opened Prelude
  import Costs
  import opened Orders
  import opened Candles
  import opened Portfolio
  import opened PaperExchange
  import opened Signals
  import opened Backtest
  import BacktestLedger

  /** For the first thirty bars nothing is decided: no entry, no rejection, and the gates are not
      asked. */
  lemma {:induction false} NothingInWarmup<E>(p: Setup<E>, candles: seq<Candle>, n: nat)
    requires p.strategy.Valid() && n <= |candles| && n <= 30
    ensures var b := After(p, candles, n);
            b.entries == [] && b.rejections == 0 && b.engine == p.engine
  {
    if n > 0 {
      NothingInWarmup(p, candles, n - 1);
      var before := After(p, candles, n - 1);
      if before.raised {
        assert After(p, candles, n) == before;
      } else {
        assert After(p, candles, n) == BarOf(p, candles, n);
        ColdBarDecidesNothing(p, before, candles[n - 1], n - 1, Decision(p.strategy, candles, n - 1),
                              p.guarded && Violates(candles[..n], candles[n - 1].timestamp));
      }
    }
  }

  lemma ColdBarDecidesNothing<E>(p: Setup<E>, b: Progress<E>, c: Candle, index: nat, signal: Signal, barred: bool)
    requires !b.raised && index < 30
    ensures var r := BarStep(p, b, c, index, signal, barred);
            r.entries == b.entries && r.rejections == b.rejections && r.engine == b.engine
  {
  }

  lemma RunSnoc(v: Venue, s: State, commands: seq<Command>, c: Command)
    ensures Run(v, s, commands + [c]) == Step(v, Run(v, s, commands), c).state
  {
    assert (commands + [c])[..|commands|] == commands;
  }

  lemma FourSteps(v: Venue, s: State, cs: seq<Command>)
    requires |cs| == 4
    ensures Run(v, s, cs)
         == Step(v, Step(v, Step(v, Step(v, s, cs[0]).state, cs[1]).state, cs[2]).state, cs[3]).state
  {
    assert cs[..0] == [] && cs[..0] + [cs[0]] == cs[..1] && cs[..1] + [cs[1]] == cs[..2];
    assert cs[..2] + [cs[2]] == cs[..3] && cs[..3] + [cs[3]] == cs;
    RunSnoc(v, s, cs[..0], cs[0]);
    RunSnoc(v, s, cs[..1], cs[1]);
    RunSnoc(v, s, cs[..2], cs[2]);
    RunSnoc(v, s, cs[..3], cs[3]);
  }

  /** The prices of a bar are played open, high, low and close, each as a price update. */
  lemma PathPlaysBar(v: Venue, s: State, symbol: string, c: Candle, played: seq<Command>)
    requires played == [Price(symbol, c.open), Price(symbol, c.high), Price(symbol, c.low), Price(symbol, c.close)]
    requires !PricePath(v, s, symbol, c).raised
    ensures PricePath(v, s, symbol, c).state == Run(v, s, played)
  {
    FourSteps(v, s, played);
  }

  /** The gates that stand between a signal and its order, asked in turn. */
  datatype Asked<E> = Asked(plan: Plan, complies: bool, approves: bool, fills: bool)

  ghost function Ask<E>(p: Setup<E>, engine: E, s: State, signal: Signal, c: Candle): Asked<E> {
    var plan := PlanFor(p.capital, p.symbol, signal);
    var (engine', complies) := p.comply(engine, s.health.halted, plan);
    var approves := p.risk(engine', s.health.halted, Snap(s.account, s.feed.prices).1, plan).1;
    Asked(plan, complies, approves, Execute(p.venue, Snapped(s), plan, c.close).filled)
  }

  /** A bar that completes enters exactly when it is warm, the signal is not flat, nothing is held, the
      plan has a size, compliance and the risk engine both let it pass, and its order is filled. It
      counts a rejection exactly when it tried and did not. */
  lemma EntersIff<E>(p: Setup<E>, b: Progress<E>, c: Candle, index: nat, signal: Signal, barred: bool)
    requires !b.raised && !BarStep(p, b, c, index, signal, barred).raised
    ensures var r, s := BarStep(p, b, c, index, signal, barred), PricePath(p.venue, b.exchange, p.symbol, c).state;
            var asked := Ask(p, b.engine, s, signal, c);
            var tries := 30 <= index && signal.direction != FLAT && p.symbol !in s.account.positions;
            var enters := tries && 0.0 < asked.plan.quantity && asked.complies && asked.approves && asked.fills;
            && r.entries == (if enters then b.entries + [signal.direction] else b.entries)
            && r.rejections == b.rejections + (if tries && !enters then 1 else 0)
            && |r.curve| == |b.curve| + 1 && r.curve[|b.curve|].timestamp == c.timestamp
  {
    var s := PricePath(p.venue, b.exchange, p.symbol, c).state;
    TriesEntersIff(p, b.(exchange := s), signal, c);
  }

  lemma TriesEntersIff<E>(p: Setup<E>, b: Progress<E>, signal: Signal, c: Candle)
    ensures var r, asked := Acted(p, b, signal, c), Ask(p, b.engine, b.exchange, signal, c);
            var enters := 0.0 < asked.plan.quantity && asked.complies && asked.approves && asked.fills;
            !r.raised && !b.raised ==>
              && r.entries == (if enters then b.entries + [signal.direction] else b.entries)
              && r.rejections == b.rejections + (if enters then 0 else 1)
  {
  }

  // ----- what an entry holds -----

  /** The price of a market order at the close: the slippage away from it, against the trader. */
  function EntryPrice(v: Venue, plan: Plan, close: real): real {
    var slip := close * (v.slippage.Bps(plan.quantity) / 10000.0);
    if plan.direction == Direction.LONG then close + slip else close - slip
  }

  /** The position of an entry: the plan's side, size and protective prices, entered at the close with
      slippage (a prediction contract's price is clamped besides). */
  predicate Holds(v: Venue, s: State, plan: Plan, close: real) {
    plan.symbol in s.account.positions
    && var h := s.account.positions[plan.symbol];
       && h.side == (if plan.direction == Direction.LONG then SideName.LONG else SideName.SHORT)
       && h.quantity == plan.quantity && h.stop == Some(plan.stop) && h.target == Some(plan.target)
       && (AssetOf(v, plan.symbol) != Costs.PREDICTION ==> h.average == EntryPrice(v, plan, close))
  }

  /** An order as a plan makes it. */
  predicate IsOf(o: Order, plan: Plan) {
    && o.symbol == plan.symbol && o.stopLoss == Some(plan.stop) && o.takeProfit == Some(plan.target)
    && o.side == (if plan.direction == Direction.LONG then Costs.BUY else Costs.SELL)
    && o.quantity == plan.quantity && o.filled == 0.0 && o.status == SUBMITTED
  }

  lemma FilledHolds(v: Venue, s: State, plan: Plan, close: real)
    requires BacktestLedger.Settles(s) && plan.symbol !in s.account.positions
    requires Execute(v, s, plan, close).filled && !Execute(v, s, plan, close).raised
    ensures Holds(v, Execute(v, s, plan, close).state, plan, close)
  {
    var priced := Priced(s, plan.symbol, close);
    var o := OrderFor(plan, AssetOf(v, plan.symbol));
    var kept, id := Arrived(v, priced, o, close), Generated(priced.orderSeq + 1);
    assert IntakeRefusal(v, priced, o, Some(close)).None?;
    FillOfPlan(v, kept, id, plan, close);
    SettledHolds(v, kept, id, NextFill(v, kept, id, close, false), plan, close);
  }

  lemma FillOfPlan(v: Venue, s: State, id: OrderId, plan: Plan, close: real)
    requires id in s.orders && IsOf(s.orders[id], plan) && s.health.failure == NoFailure
    requires s.orders[id].asset == AssetOf(v, plan.symbol)
    ensures var f := NextFill(v, s, id, close, false);
            && f.quantity == plan.quantity
            && (AssetOf(v, plan.symbol) != Costs.PREDICTION ==> f.price == EntryPrice(v, plan, close))
  {
  }

  lemma SettledHolds(v: Venue, s: State, id: OrderId, f: Fill, plan: Plan, close: real)
    requires id in s.orders && IsOf(s.orders[id], plan) && plan.symbol !in s.account.positions
    requires f.quantity == plan.quantity && Settled(s, id, f).state.orders[id].status == FILLED
    requires AssetOf(v, plan.symbol) != Costs.PREDICTION ==> f.price == EntryPrice(v, plan, close)
    ensures Holds(v, Settled(s, id, f).state, plan, close)
  {
  }

  /** Rules and snapshots change none of that. */
  lemma HoldsOn(v: Venue, s: State, t: State, plan: Plan, close: real)
    requires Holds(v, s, plan, close) && t.account == s.account
    ensures Holds(v, t, plan, close) && Holds(v, Snapped(t), plan, close)
  {
  }

  lemma PlacedHolds<E>(p: Setup<E>, b: Progress<E>, plan: Plan, c: Candle)
    requires BacktestLedger.Settles(b.exchange) && plan.symbol == p.symbol && p.symbol !in b.exchange.account.positions
    ensures var r := Placed(p, b, plan, c);
            |b.entries| < |r.entries| ==> Holds(p.venue, r.exchange, plan, c.close)
  {
    var x := Execute(p.venue, b.exchange, plan, c.close);
    if x.filled && !x.raised {
      FilledHolds(p.venue, b.exchange, plan, c.close);
      HoldsOn(p.venue, x.state, EntryRules(x.state, p.symbol, p.oneR, plan.model, c), plan, c.close);
    }
  }

  lemma JudgedHolds<E>(p: Setup<E>, b: Progress<E>, halted: bool, plan: Plan, c: Candle)
    requires BacktestLedger.Settles(b.exchange) && plan.symbol == p.symbol && p.symbol !in b.exchange.account.positions
    ensures var r := Judged(p, b, halted, plan, c);
            |b.entries| < |r.entries| ==> Holds(p.venue, r.exchange, plan, c.close)
  {
    var after := p.risk(b.engine, halted, Snap(b.exchange.account, b.exchange.feed.prices).1, plan).0;
    PlacedHolds(p, b.(engine := after, exchange := Snapped(b.exchange)), plan, c);
  }

  lemma ActedHolds<E>(p: Setup<E>, b: Progress<E>, signal: Signal, c: Candle)
    requires BacktestLedger.Settles(b.exchange) && p.symbol !in b.exchange.account.positions
    ensures var r := Acted(p, b, signal, c);
            |b.entries| < |r.entries| ==> Holds(p.venue, r.exchange, PlanFor(p.capital, p.symbol, signal), c.close)
  {
    var plan, halted := PlanFor(p.capital, p.symbol, signal), b.exchange.health.halted;
    JudgedHolds(p, b.(engine := p.comply(b.engine, halted, plan).0), halted, plan, c);
  }

  lemma EndHolds<E>(p: Setup<E>, b: Progress<E>, signal: Signal, c: Candle, warm: bool)
    requires BacktestLedger.Settles(b.exchange)
    ensures var r := BarEnd(p, b, signal, c, warm);
            |b.entries| < |r.entries| ==> Holds(p.venue, r.exchange, PlanFor(p.capital, p.symbol, signal), c.close)
  {
    if p.symbol !in b.exchange.account.positions {
      var acted, plan := Acted(p, b, signal, c), PlanFor(p.capital, p.symbol, signal);
      ActedHolds(p, b, signal, c);
      if Holds(p.venue, acted.exchange, plan, c.close) {
        HoldsOn(p.venue, acted.exchange, acted.exchange, plan, c.close);
      }
    }
  }

  lemma BarHolds<E>(p: Setup<E>, b: Progress<E>, c: Candle, index: nat, signal: Signal, barred: bool)
    requires !b.raised && BacktestLedger.Books(b.exchange, p.capital)
    ensures var r := BarStep(p, b, c, index, signal, barred);
            |b.entries| < |r.entries| ==> Holds(p.venue, r.exchange, PlanFor(p.capital, p.symbol, signal), c.close)
  {
    var moved := b.(exchange := PricePath(p.venue, b.exchange, p.symbol, c).state);
    BacktestLedger.PathKeepsBooks(p.venue, b.exchange, p.symbol, c, p.capital);
    EndHolds(p, moved, signal, c, WARMUP <= index);
  }

  /** A bar of the run, by what it starts from. */
  lemma RunGrowsByBar<E>(p: Setup<E>, candles: seq<Candle>, n: nat)
    requires p.strategy.Valid() && 0 < n <= |candles|
    ensures var before, after := After(p, candles, n - 1), After(p, candles, n);
            if before.raised then after == before
            else after == BarStep(p, before, candles[n - 1], n - 1, Decision(p.strategy, candles, n - 1),
                                  p.guarded && Violates(candles[..n], candles[n - 1].timestamp))
  {
    if After(p, candles, n - 1).raised {
      assert After(p, candles, n) == After(p, candles, n - 1);
    } else {
      assert After(p, candles, n) == BarOf(p, candles, n);
    }
  }

  /** If a step has entered, the position is the one the signal planned: on its side, of its size, with
      its stop and its target, entered at the close. */
  ghost predicate EntryHeld<E>(p: Setup<E>, before: Progress<E>, after: Progress<E>, signal: Signal, c: Candle) {
    |before.entries| < |after.entries| ==>
      Holds(p.venue, after.exchange, PlanFor(p.capital, p.symbol, signal), c.close)
  }

  lemma StepHolds<E>(p: Setup<E>, before: Progress<E>, after: Progress<E>, c: Candle, index: nat, signal: Signal,
                     barred: bool)
    requires BacktestLedger.Books(before.exchange, p.capital)
    requires if before.raised then after == before else after == BarStep(p, before, c, index, signal, barred)
    ensures EntryHeld(p, before, after, signal, c)
  {
    if !before.raised {
      BarHolds(p, before, c, index, signal, barred);
    }
  }

  /** This is so after every bar of every backtest. */
  lemma EntriesAreHeld<E>(p: Setup<E>, candles: seq<Candle>, n: nat, before: Progress<E>, after: Progress<E>)
    requires p.strategy.Valid() && 0 < n <= |candles|
    requires before == After(p, candles, n - 1) && after == After(p, candles, n)
    ensures EntryHeld(p, before, after, Decision(p.strategy, candles, n - 1), candles[n - 1])
  {
    var c, signal := candles[n - 1], Decision(p.strategy, candles, n - 1);
    var barred := p.guarded && Violates(candles[..n], c.timestamp);
    RunGrowsByBar(p, candles, n);
    BacktestLedger.AfterKeepsBooks(p, candles, n - 1);
    StepHolds(p, before, after, c, n - 1, signal, barred);
  }

  // ----- the curve -----

  /** The point a bar adds is the snapshot it ends with: stamped with the bar, its cash that of the
      account, its equity and day's profit those at the prices that stand. */
  lemma PointsAreSnapshots<E>(p: Setup<E>, b: Progress<E>, c: Candle, index: nat, signal: Signal, barred: bool)
    requires !b.raised && !BarStep(p, b, c, index, signal, barred).raised
    ensures var r := BarStep(p, b, c, index, signal, barred);
            var point, again := r.curve[|b.curve|], Snap(r.exchange.account, r.exchange.feed.prices).1;
            && r.curve == b.curve + [point] && point.timestamp == c.timestamp
            && point.cash == r.exchange.account.cash && point.equity == again.equity
            && point.drawdown == again.drawdown && point.dailyPnl == again.equity - r.exchange.account.dayStart
  {
    var moved := b.(exchange := PricePath(p.venue, b.exchange, p.symbol, c).state);
    var tries := WARMUP <= index && signal.direction != FLAT && p.symbol !in moved.exchange.account.positions;
    var acted := if tries then Acted(p, moved, signal, c) else moved;
    SnappedAgain(acted.exchange.account, acted.exchange.feed.prices);
  }

  /** A snapshot taken again at the same prices finds the same. */
  lemma SnappedAgain(a: Account, prices: map<string, real>)
    ensures Snap(Snap(a, prices).0, prices).1 == Snap(a, prices).1
  {
    MarkedAgain(a.positions, prices);
  }

  lemma MarkedAgain(ps: map<string, Holding>, prices: map<string, real>)
    ensures MarkAll(MarkAll(ps, prices), prices) == MarkAll(ps, prices)
  {
    var marked := MarkAll(ps, prices);
    forall s | s in ps
      ensures Marked(marked[s], MarkPrice(marked[s], prices, s)) == marked[s]
    {
    }
  }

  // ----- the rules of an entry -----

  /** A breakout trails by twice the range of its bar, or twice a percent of its close where the bar has
      none, and never widens; any other entry of the break-even strategy moves to break-even and sells
      half at one unit of risk. */
  lemma EntryRulesAre(s: State, symbol: string, oneR: bool, model: string, c: Candle)
    ensures var t, b := EntryRules(s, symbol, oneR, model, c), EntryRules(s, symbol, oneR, model, c).rules;
            && t == s.(rules := b)
            && (model == "DONCHIAN20" ==>
                  && symbol in b.trailing && b.trailing[symbol].mode == Trailing.ATR && !b.trailing[symbol].allowWiden
                  && b.trailing[symbol].multiplier == 2.0
                  && b.trailing[symbol].atr * 100.0 == if c.high != c.low then 100.0 * (c.high - c.low) else c.close)
            && (oneR ==> symbol in b.partials && b.partials[symbol] == PartialExit(50.0, false))
            && (oneR && model != "DONCHIAN20" ==> symbol in b.breakEven && b.breakEven[symbol])
            && (!oneR && model != "DONCHIAN20" ==> t == s)
  {
  }
}
