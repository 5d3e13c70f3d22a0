/** What the backtest's decisions come to: every signal is protected on the right side, and every
    plan made from one keeps to its share of the capital. */
module BacktestPlans {
  import opened Prelude
  import opened Candles
  import opened Windows
  import opened Indicators
  import Wilder
  import opened Signals
  import opened Backtest

  /** Positive prices, the close between low and high. */
  predicate Plausible(c: Candle) { 0.0 < c.low <= c.close <= c.high }

  ghost predicate AllPlausible(candles: seq<Candle>) {
    forall i :: 0 <= i < |candles| ==> Plausible(candles[i])
  }

  /** Multiples that move prices the way their names say. */
  predicate Sensible(s: Strategy) {
    match s
    case Donchian(_, atrMultiple, _) => 0.0 < atrMultiple
    case MeanReversion(_, band) => 0.0 <= band
    case _ => true
  }

  /** A long has its stop below the entry and its target above, a short the other way round. */
  predicate Protected(s: Signal) {
    match s.direction
    case LONG => s.stop.Some? && s.target.Some? && s.stop.value < s.entry < s.target.value
    case SHORT => s.stop.Some? && s.target.Some? && s.target.value < s.entry < s.stop.value
    case FLAT => true
  }

  // ----- positive averages -----

  lemma {:induction false} SumNotNegative(s: seq<real>)
    requires forall i :: 0 <= i < |s| ==> 0.0 <= s[i]
    ensures 0.0 <= Sum(s)
  {
    if s != [] {
      SumNotNegative(s[..|s| - 1]);
    }
  }

  lemma MeanPositive(s: seq<real>)
    requires s != [] && 0.0 < s[|s| - 1] && forall i :: 0 <= i < |s| ==> 0.0 <= s[i]
    ensures 0.0 < Mean(s)
  {
    SumNotNegative(s[..|s| - 1]);
    assert Mean(s) * |s| as real == Sum(s) && 0.0 < Sum(s);
    if Mean(s) <= 0.0 {
      ScaleLeq(Mean(s), 0.0, |s| as real);
    }
  }

  // ----- one strategy at a time -----

  lemma ChannelAt(hist: seq<Candle>, lookback: nat, i: nat)
    requires 0 < lookback < |hist| && i < lookback
    ensures Channel(hist, lookback)[i] == hist[|hist| - 1 - lookback + i]
  {
  }

  /** A close beyond the bar before it leaves a positive true range. */
  lemma BreakoutHasRange(hist: seq<Candle>)
    requires AllPlausible(hist) && 2 <= |hist|
    requires var n := |hist| - 1; hist[n].close > hist[n - 1].high || hist[n].close < hist[n - 1].low
    ensures 0.0 < Wilder.TrueRange(Bars(hist), |hist| - 1)
    ensures forall i :: 0 <= i < |hist| ==> 0.0 <= Wilder.TrueRange(Bars(hist), i)
  {
    var n := |hist| - 1;
    assert Plausible(hist[n]) && Plausible(hist[n - 1]);
    assert forall i :: 0 <= i < |hist| ==> Plausible(hist[i]);
  }

  lemma DonchianProtects(hist: seq<Candle>, lookback: nat, atrMultiple: real, volumeMultiple: real)
    requires AllPlausible(hist) && 0 < lookback && lookback + 2 <= |hist| && 0.0 < atrMultiple
    ensures Protected(DonchianOn(hist, lookback, atrMultiple, volumeMultiple))
  {
    var n, window := |hist| - 1, Channel(hist, lookback);
    var s := DonchianOn(hist, lookback, atrMultiple, volumeMultiple);
    if s.direction != FLAT {
      HighestBounds(window);
      LowestBounds(window);
      ChannelAt(hist, lookback, lookback - 1);
      BreakoutHasRange(hist);
      assert Plausible(hist[n]);
      var range := DonchianRange(hist);
      RangeIsPositive(hist);
      assert 0.0 < atrMultiple * range;
    }
  }

  lemma RangeIsPositive(hist: seq<Candle>)
    requires hist != [] && Plausible(hist[|hist| - 1]) && 0.0 < Wilder.TrueRange(Bars(hist), |hist| - 1)
    requires forall i :: 0 <= i < |hist| ==> 0.0 <= Wilder.TrueRange(Bars(hist), i)
    ensures 0.0 < DonchianRange(hist)
  {
    if 14 <= |hist| {
      MeanPositive(Wilder.TrueRanges(Bars(hist))[|hist| - 14..|hist|]);
    }
  }

  lemma MeanReversionProtects(hist: seq<Candle>, period: nat, band: real)
    requires AllPlausible(hist) && 0 < period && period + 1 <= |hist| && 0.0 <= band
    ensures Protected(MeanReversionOn(hist, period, band))
  {
    var n, closes := |hist|, Closes(hist);
    assert forall i :: 0 <= i < n ==> Plausible(hist[i]) && 0.0 < closes[i];
    MeanPositive(closes[n - period..n]);
    var mid := SmaAt(closes, period, n - 1).value;
    assert mid == Mean(closes[n - period..n]);
    NonNegativeProduct(mid, band);
    assert mid * (1.0 - band) == mid - mid * band && mid * (1.0 + band) == mid + mid * band;
  }

  lemma StructureProtects(hist: seq<Candle>, lookback: nat)
    requires AllPlausible(hist) && 0 < lookback && lookback + 2 <= |hist|
    ensures Protected(StructureOn(hist, lookback))
  {
    var window := Channel(hist, lookback);
    HighestBounds(window);
    LowestBounds(window);
    ChannelAt(hist, lookback, 0);
    assert Plausible(hist[|hist| - 1 - lookback]);
    assert Lowest(window) <= window[0].low <= window[0].high <= Highest(window);
  }

  lemma TrendFollowingProtects(hist: seq<Candle>, fast: nat, slow: nat)
    requires AllPlausible(hist) && 0 < fast && 0 < slow && slow + 2 <= |hist|
    ensures Protected(TrendFollowingOn(hist, fast, slow))
  {
    assert Plausible(hist[|hist| - 1]);
  }

  /** Every signal of every strategy is protected, at the close of a bar it was closed by. */
  lemma SignalsAreProtected(s: Strategy, candles: seq<Candle>, index: nat)
    requires s.Valid() && Sensible(s) && AllPlausible(candles)
    ensures Protected(SignalFor(s, candles, index))
  {
    var hist := Closed(candles, index);
    assert AllPlausible(hist);
    if s.Needs() <= |hist| {
      match s
      case Donchian(lookback, atrMultiple, volumeMultiple) =>
        DonchianProtects(hist, lookback, atrMultiple, volumeMultiple);
      case MeanReversion(period, band) => MeanReversionProtects(hist, period, band);
      case TrendFollowing(fast, slow) => TrendFollowingProtects(hist, fast, slow);
      case Structure(lookback) => StructureProtects(hist, lookback);
    }
  }

  // ----- plans -----

  lemma SizedWithin(budget: real, riskPerUnit: real, cap: real, entry: real)
    requires 0.0 <= budget && 0.0 < riskPerUnit && 0.0 <= cap && 0.0 < entry
    ensures var q := if budget / riskPerUnit * entry > cap then cap / entry else budget / riskPerUnit;
            0.0 <= q && q * entry <= cap && q * riskPerUnit <= budget
  {
    var sized := budget / riskPerUnit;
    assert sized * riskPerUnit == budget;
    QuotientAtLeast(budget, riskPerUnit, 0.0);
    QuotientAtLeast(cap, entry, 0.0);
    assert cap / entry * entry == cap;
    if sized * entry > cap {
      if sized < cap / entry {
        ScaleLeq(sized, cap / entry, entry);
      }
      ScaleLeq(cap / entry, sized, riskPerUnit);
    }
  }

  /** Stop and target on their sides, at most half a percent of the capital at risk, at most two
      percent in value. */
  predicate KeepsShare(p: Plan, capital: real) {
    && (if p.direction == LONG then p.stop < p.entry < p.target else p.target < p.entry < p.stop)
    && 0.0 <= p.quantity && p.quantity * p.entry <= capital * 0.02
    && p.quantity * Abs(p.entry - p.stop) <= capital * 0.005
  }

  /** A plan from a protected signal keeps its share of the capital, even where it falls back on a
      stop or target of its own. */
  lemma PlanKeepsItsShare(capital: real, symbol: string, s: Signal)
    requires Protected(s) && s.direction != FLAT && 0.0 < s.entry && 0.0 <= capital
    ensures KeepsShare(PlanFor(capital, symbol, s), capital)
  {
    var p := PlanFor(capital, symbol, s);
    SizedWithin(capital * 0.005, Abs(p.entry - p.stop), capital * 0.02, s.entry);
    QuotientAtLeast(capital * 0.005, Abs(p.entry - p.stop), 0.0);
  }

  /** The plan of a signal with capital behind it is for a positive size, and for the largest one that
      keeps both shares: no larger `q` risks half a percent at the stop and is worth two percent. */
  lemma PlanIsLargest(capital: real, symbol: string, s: Signal, q: real)
    requires Protected(s) && s.direction != FLAT && 0.0 < s.entry && 0.0 < capital
    ensures var p := PlanFor(capital, symbol, s);
            && 0.0 < p.quantity
            && (q * p.entry <= capital * 0.02 && q * Abs(p.entry - p.stop) <= capital * 0.005 ==> q <= p.quantity)
  {
    var p := PlanFor(capital, symbol, s);
    var risk := Abs(p.entry - p.stop);
    assert 0.0 < risk;
    SizeIsLargest(capital, s.entry, risk, p.quantity, q);
  }

  lemma SizeIsLargest(capital: real, entry: real, risk: real, size: real, q: real)
    requires 0.0 < capital && 0.0 < entry && 0.0 < risk && size == PlanQuantity(capital, entry, risk)
    ensures 0.0 < size
    ensures q * entry <= capital * 0.02 && q * risk <= capital * 0.005 ==> q <= size
  {
    PositiveQuotient(capital * 0.005, risk);
    PositiveQuotient(capital * 0.02, entry);
    if q * entry <= capital * 0.02 && q * risk <= capital * 0.005 {
      AtMostQuotient(q, entry, capital * 0.02);
      AtMostQuotient(q, risk, capital * 0.005);
    }
  }

  lemma PositiveQuotient(x: real, n: real)
    requires 0.0 < x && 0.0 < n
    ensures 0.0 < x / n
  {
  }

  lemma AtMostQuotient(q: real, n: real, x: real)
    requires 0.0 < n && q * n <= x
    ensures q <= x / n
  {
    QuotientAtLeast(x, n, q);
  }

  /** The plan is the signal's own: its direction, entry and protective prices, and where the signal
      has none (or zero), a stop two percent away from the entry and a target six percent. */
  lemma PlanFollowsSignal(capital: real, symbol: string, s: Signal)
    ensures var p := PlanFor(capital, symbol, s);
            && p.symbol == symbol && p.direction == s.direction && p.entry == s.entry && p.model == s.model
            && (s.stop.Some? && s.stop.value != 0.0 ==> p.stop == s.stop.value)
            && (s.target.Some? && s.target.value != 0.0 ==> p.target == s.target.value)
            && (s.stop.None? || s.stop.value == 0.0 ==>
                  50.0 * p.stop == if s.direction == LONG then 49.0 * s.entry else 51.0 * s.entry)
            && (s.target.None? || s.target.value == 0.0 ==>
                  50.0 * p.target == if s.direction == LONG then 53.0 * s.entry else 47.0 * s.entry)
  {
  }

  lemma EntryIsLastClose(s: Strategy, candles: seq<Candle>, index: nat)
    requires s.Valid() && s.Needs() <= |Closed(candles, index)|
    ensures SignalFor(s, candles, index).entry == LastClose(Closed(candles, index))
  {
  }

  /** From the candles: whatever name a strategy goes by, every plan made at any bar from the signal
      it gives there keeps its share of the capital. */
  lemma PlansFromCandlesKeepTheirShare(id: string, lookback: nat, atrMultiple: real, volumeMultiple: real, period: nat,
                                       candles: seq<Candle>, index: nat, capital: real, symbol: string)
    requires 0 < lookback && 0 < period && 0.0 < atrMultiple && AllPlausible(candles) && 0.0 <= capital
    ensures var s := StrategyOf(id, lookback, atrMultiple, volumeMultiple, period);
            s.Valid() && (SignalFor(s, candles, index).direction != FLAT ==>
              KeepsShare(PlanFor(capital, symbol, SignalFor(s, candles, index)), capital))
  {
    var s := StrategyOf(id, lookback, atrMultiple, volumeMultiple, period);
    var signal, hist := SignalFor(s, candles, index), Closed(candles, index);
    SignalsAreProtected(s, candles, index);
    if signal.direction != FLAT {
      EntryIsLastClose(s, candles, index);
      assert Plausible(candles[|hist| - 1]) && hist[|hist| - 1] == candles[|hist| - 1];
      PlanKeepsItsShare(capital, symbol, signal);
    }
  }
}
