/** The backtest as the program runs it: a loop over the bars, driving the mutable exchange. */
module BacktestEngine {
  import opened Prelude
  import opened Candles
  import opened Orders
  import Portfolio
  import opened PaperExchange
  import PaperEngine
  import opened Signals
  import opened Backtest

  class LookaheadGuard {
    const all: seq<Candle>
    const enabled: bool
    var cursor: int
    var violations: nat

    constructor (candles: seq<Candle>, enabled: bool)
      ensures all == candles && this.enabled == enabled && cursor == -1 && violations == 0
    {
      all, this.enabled, cursor, violations := candles, enabled, -1, 0;
    }

    method MoveTo(i: int)
      modifies `cursor
      ensures cursor == i
    {
      cursor := i;
    }

    /** Raises, and counts the violation, exactly when something used is later than the bar at
        the cursor. */
    method AssertNoFutureAccess(used: seq<Candle>) returns (raised: bool)
      requires cursor < |all|
      modifies `violations
      ensures raised <==> enabled && 0 <= cursor && Violates(used, all[cursor].timestamp)
      ensures violations == old(violations) + if raised then 1 else 0
    {
      if !enabled || cursor < 0 {
        return false;
      }
      for i := 0 to |used|
        invariant violations == old(violations)
        invariant forall j :: 0 <= j < i ==> used[j].timestamp <= all[cursor].timestamp
      {
        if used[i].timestamp > all[cursor].timestamp {
          violations := violations + 1;
          return true;
        }
      }
      raised := false;
    }
  }

  method FollowPrices(x: PaperEngine.Exchange, symbol: string, c: Candle) returns (raised: bool)
    requires x.Valid()
    modifies x, x.portfolio, x.portfolio.Repr
    ensures x.Valid() && fresh(x.portfolio.Repr - old(x.portfolio.Repr))
    ensures Outcome(x.Value(), raised) == PricePath(x.venue, old(x.Value()), symbol, c)
  {
    raised := x.OnPriceUpdate(symbol, c.open);
    if !raised {
      raised := x.OnPriceUpdate(symbol, c.high);
    }
    if !raised {
      raised := x.OnPriceUpdate(symbol, c.low);
    }
    if !raised {
      raised := x.OnPriceUpdate(symbol, c.close);
    }
  }

  /** The market order of a plan, at the close. */
  method SubmitPlan(x: PaperEngine.Exchange, plan: Plan, close: real) returns (id: OrderId, raised: bool)
    requires x.Valid()
    modifies x, x.portfolio, x.portfolio.Repr
    ensures x.Valid() && fresh(x.portfolio.Repr - old(x.portfolio.Repr))
    ensures SubmittedAs(x.venue, old(x.Value()), plan, close, id, Outcome(x.Value(), raised))
  {
    x.SetMarketPrice(plan.symbol, close);
    id := Generated(x.orderSeq + 1);
    raised := x.SubmitOrder(OrderFor(plan, AssetOf(x.venue, plan.symbol)), Some(close));
  }

  ghost predicate SubmittedAs(v: Venue, s: State, plan: Plan, close: real, id: OrderId, r: Outcome) {
    var priced := Priced(s, plan.symbol, close);
    id == Generated(priced.orderSeq + 1)
    && r == CreateOrder(v, priced, OrderFor(plan, AssetOf(v, plan.symbol)), Some(close))
  }

  lemma SubmittedIsExecuted(v: Venue, s: State, plan: Plan, close: real, id: OrderId, r: Outcome)
    requires SubmittedAs(v, s, plan, close, id, r)
    ensures Execute(v, s, plan, close)
         == Executed(r.state, id in r.state.orders && r.state.orders[id].status == FILLED, r.raised)
  {
  }

  method PlaceOrder(x: PaperEngine.Exchange, plan: Plan, close: real) returns (filled: bool, raised: bool)
    requires x.Valid()
    modifies x, x.portfolio, x.portfolio.Repr
    ensures x.Valid() && fresh(x.portfolio.Repr - old(x.portfolio.Repr))
    ensures Executed(x.Value(), filled, raised) == Execute(x.venue, old(x.Value()), plan, close)
  {
    var id;
    id, raised := SubmitPlan(x, plan, close);
    filled := id in x.orders && x.orders[id].status == FILLED;
    SubmittedIsExecuted(x.venue, old(x.Value()), plan, close, id, Outcome(x.Value(), raised));
  }

  method SnapshotNow(x: PaperEngine.Exchange) returns (snap: Portfolio.Snapshot)
    requires x.Valid()
    modifies x.portfolio, x.portfolio.Repr
    ensures x.Valid() && x.portfolio.Repr == old(x.portfolio.Repr)
    ensures x.Value() == Snapped(old(x.Value()))
    ensures snap == Portfolio.Snap(old(x.Value().account), old(x.Value().feed.prices)).1
  {
    snap := x.portfolio.TakeSnapshot(x.prices);
  }

  /** The rules of a filled entry. */
  method ApplyEntryRules<E>(x: PaperEngine.Exchange, p: Setup<E>, plan: Plan, c: Candle)
    requires x.Valid()
    modifies x, x.trailing
    ensures x.Valid()
    ensures x.Value() == EntryRules(old(x.Value()), p.symbol, p.oneR, plan.model, c)
  {
    if p.oneR {
      x.ConfigureRules(p.symbol, ONE_R_RULES);
    }
    if plan.model == "DONCHIAN20" {
      x.ConfigureRules(p.symbol, TrailingRules(c));
    }
  }

  /** An approved plan: rejected by the exchange, or filled, noted by the engine and put under its
      rules. */
  method Place<E>(p: Setup<E>, x: PaperEngine.Exchange, engine: E, ghost b: Progress<E>, plan: Plan, c: Candle)
    returns (after: E, filled: bool, raised: bool)
    requires x.Valid() && x.venue == p.venue && b.exchange == x.Value() && b.engine == engine && !b.raised
    modifies x, x.trailing, x.portfolio, x.portfolio.Repr
    ensures x.Valid() && fresh(x.portfolio.Repr - old(x.portfolio.Repr))
    ensures Placed(p, b, plan, c) == Told(b, after, x.Value(), filled, raised, plan.direction)
  {
    after := engine;
    filled, raised := PlaceOrder(x, plan, c.close);
    if raised {
      return;
    }
    if filled {
      after := p.settle(engine, plan);
      ApplyEntryRules(x, p, plan, c);
    }
    var snap := SnapshotNow(x);
  }

  /** What became of a signal: an exception, an entry, or a rejection. */
  ghost function Told<E>(b: Progress<E>, engine: E, x: State, placed: bool, raised: bool, d: Direction): Progress<E> {
    if raised then b.(engine := engine, exchange := x, raised := true)
    else if placed then b.(engine := engine, exchange := x, entries := b.entries + [d])
    else b.(engine := engine, exchange := x, rejections := b.rejections + 1)
  }

  ghost function Entered<E>(b: Progress<E>, engine: E, x: State, tried: bool, placed: bool, raised: bool, d: Direction)
    : Progress<E>
  {
    if tried then Told(b, engine, x, placed, raised, d) else b.(engine := engine, exchange := x)
  }

  method Act<E>(p: Setup<E>, x: PaperEngine.Exchange, engine: E, ghost b: Progress<E>, signal: Signal, c: Candle)
    returns (after: E, placed: bool, raised: bool)
    requires x.Valid() && x.venue == p.venue && b.exchange == x.Value() && b.engine == engine && !b.raised
    modifies x, x.trailing, x.portfolio, x.portfolio.Repr
    ensures x.Valid() && fresh(x.portfolio.Repr - old(x.portfolio.Repr))
    ensures Acted(p, b, signal, c) == Told(b, after, x.Value(), placed, raised, signal.direction)
  {
    var plan, halted := PlanFor(p.capital, p.symbol, signal), x.health.halted;
    if plan.quantity <= 0.0 {
      return engine, false, false;
    }
    var complying, complies := p.comply(engine, halted, plan).0, p.comply(engine, halted, plan).1;
    if !complies {
      return complying, false, false;
    }
    var snap := SnapshotNow(x);
    var judged := p.risk(complying, halted, snap, plan);
    after := judged.0;
    if !judged.1 {
      return after, false, false;
    }
    after, placed, raised := Place(p, x, after, b.(engine := after, exchange := x.Value()), plan, c);
  }

  /** The part of a bar after its price path: maybe an entry, then the snapshot on the curve. */
  method Decide<E>(p: Setup<E>, x: PaperEngine.Exchange, engine: E, ghost b: Progress<E>,
                   signal: Signal, c: Candle, warm: bool)
    returns (after: E, tried: bool, placed: bool, raised: bool, point: seq<Point>)
    requires x.Valid() && x.venue == p.venue && b.exchange == x.Value() && b.engine == engine && !b.raised
    modifies x, x.trailing, x.portfolio, x.portfolio.Repr
    ensures x.Valid() && fresh(x.portfolio.Repr - old(x.portfolio.Repr))
    ensures raised ==> tried
    ensures BarEnd(p, b, signal, c, warm)
         == Entered(b, after, x.Value(), tried, placed, raised, signal.direction).(curve := b.curve + point)
  {
    after, tried, placed, raised, point := engine, false, false, false, [];
    if warm && signal.direction != FLAT && p.symbol !in x.portfolio.positions {
      tried := true;
      after, placed, raised := Act(p, x, engine, b, signal, c);
      if raised {
        return;
      }
    }
    var snap := SnapshotNow(x);
    point := [Point(c.timestamp, snap.equity, snap.cash, snap.drawdown, snap.dailyPnl)];
  }

  /** One bar; the caller files the point, and the entry or the rejection. */
  method PlayBar<E>(p: Setup<E>, x: PaperEngine.Exchange, engine: E, ghost b: Progress<E>, c: Candle, index: nat,
                    signal: Signal, violates: bool)
    returns (after: E, tried: bool, placed: bool, raised: bool, point: seq<Point>)
    requires x.Valid() && x.venue == p.venue && b.exchange == x.Value() && b.engine == engine && !b.raised
    modifies x, x.trailing, x.portfolio, x.portfolio.Repr
    ensures x.Valid() && fresh(x.portfolio.Repr - old(x.portfolio.Repr))
    ensures raised ==> BarStep(p, b, c, index, signal, violates).raised
    ensures !raised ==>
      BarStep(p, b, c, index, signal, violates)
      == Entered(b, after, x.Value(), tried, placed, false, signal.direction).(curve := b.curve + point)
  {
    after, tried, placed, raised, point := engine, false, false, violates, [];
    if !raised {
      raised := FollowPrices(x, p.symbol, c);
      if !raised {
        after, tried, placed, raised, point :=
          Decide(p, x, engine, b.(exchange := x.Value()), signal, c, WARMUP <= index);
      }
    }
  }

  lemma AfterNext<E>(p: Setup<E>, candles: seq<Candle>, i: nat)
    requires p.strategy.Valid() && i < |candles| && !After(p, candles, i).raised
    ensures After(p, candles, i + 1) == BarOf(p, candles, i + 1)
  {
  }

  /** The bar at position `i` of a run that has reached it. */
  method NextBar<E>(p: Setup<E>, candles: seq<Candle>, i: nat, guard: LookaheadGuard,
                    x: PaperEngine.Exchange, engine: E, ghost b: Progress<E>)
    returns (after: E, d: Direction, tried: bool, placed: bool, raised: bool, point: seq<Point>)
    requires p.strategy.Valid() && i < |candles| && guard.all == candles && guard.enabled == p.guarded
    requires b == After(p, candles, i) && !b.raised
    requires x.Valid() && x.venue == p.venue && b.exchange == x.Value() && b.engine == engine
    requires guard !in x.portfolio.Repr
    modifies guard, x, x.trailing, x.portfolio, x.portfolio.Repr
    ensures x.Valid() && fresh(x.portfolio.Repr - old(x.portfolio.Repr)) && guard !in x.portfolio.Repr
    ensures raised ==> After(p, candles, i + 1).raised
    ensures !raised ==>
      After(p, candles, i + 1)
      == Entered(b, after, x.Value(), tried, placed, false, d).(curve := b.curve + point)
  {
    guard.MoveTo(i);
    var violates := guard.AssertNoFutureAccess(candles[..i + 1]);
    var signal := Decision(p.strategy, candles, i);
    d := signal.direction;
    after, tried, placed, raised, point := PlayBar(p, x, engine, b, candles[i], i, signal, violates);
    AfterNext(p, candles, i);
  }

  /** The whole backtest, ending early where the program lets an exception out. It leaves the
      exchange, curve, rejections and entries of `After`. */
  method RunBacktest<E>(p: Setup<E>, candles: seq<Candle>)
    returns (x: PaperEngine.Exchange, engine: E,
             curve: seq<Point>, rejections: nat, entries: seq<Direction>, raised: bool)
    requires p.strategy.Valid()
    ensures fresh(x) && x.Valid() && x.venue == p.venue
    ensures raised <==> After(p, candles, |candles|).raised
    ensures !raised ==>
      After(p, candles, |candles|) == Progress(engine, x.Value(), curve, rejections, entries, false)
  {
    x := new PaperEngine.Exchange(p.venue, p.capital);
    var guard := new LookaheadGuard(candles, p.guarded);
    engine, curve, rejections, entries, raised := p.engine, [], 0, [], false;
    for i := 0 to |candles|
      invariant fresh(x) && fresh(x.trailing) && fresh(x.portfolio) && fresh(x.portfolio.Repr)
      invariant x.Valid() && x.venue == p.venue && !raised
      invariant fresh(guard) && guard !in x.portfolio.Repr && guard.all == candles && guard.enabled == p.guarded
      invariant After(p, candles, i) == Progress(engine, x.Value(), curve, rejections, entries, false)
    {
      ghost var b := After(p, candles, i);
      var d, tried, placed, point;
      engine, d, tried, placed, raised, point := NextBar(p, candles, i, guard, x, engine, b);
      if raised {
        CurveGrows(p, candles, i + 1, |candles|);
        return;
      }
      curve := curve + point;
      if tried && placed {
        entries := entries + [d];
      } else if tried {
        rejections := rejections + 1;
      }
    }
  }
}
