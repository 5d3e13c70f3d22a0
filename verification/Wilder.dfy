/** The indicators built on true range and on Wilder's smoothing: ATR, RSI, ADX, and the
    volume-weighted price, with the ranges their results are meant to stay in. */
module Wilder {
  import opened Prelude
  import opened Windows
  import opened Indicators

  datatype Bar = Bar(high: real, low: real, close: real)

  /** A bar whose close lies between its low and its high. */
  predicate WellFormed(b: Bar) { b.low <= b.close <= b.high }

  ghost predicate AllWellFormed(bars: seq<Bar>) {
    forall i :: 0 <= i < |bars| ==> WellFormed(bars[i])
  }

  // ----- true range and directional movement -----

  function TrueRange(bars: seq<Bar>, i: nat): real
    requires i < |bars|
  {
    if i == 0 then bars[0].high - bars[0].low
    else Max(Max(bars[i].high - bars[i].low, Abs(bars[i].high - bars[i - 1].close)),
             Abs(bars[i].low - bars[i - 1].close))
  }

  function Up(bars: seq<Bar>, i: nat): real
    requires 0 < i < |bars|
  {
    bars[i].high - bars[i - 1].high
  }

  function Down(bars: seq<Bar>, i: nat): real
    requires 0 < i < |bars|
  {
    bars[i - 1].low - bars[i].low
  }

  function PlusMove(bars: seq<Bar>, i: nat): real
    requires i < |bars|
  {
    if i == 0 then 0.0 else if Up(bars, i) > Down(bars, i) && Up(bars, i) > 0.0 then Up(bars, i) else 0.0
  }

  function MinusMove(bars: seq<Bar>, i: nat): real
    requires i < |bars|
  {
    if i == 0 then 0.0 else if Down(bars, i) > Up(bars, i) && Down(bars, i) > 0.0 then Down(bars, i) else 0.0
  }

  /** At most one of the two movements is non-zero, and neither leaves the true range. */
  lemma MovesWithinRange(bars: seq<Bar>, i: nat)
    requires i < |bars| && AllWellFormed(bars)
    ensures 0.0 <= PlusMove(bars, i) && 0.0 <= MinusMove(bars, i)
    ensures PlusMove(bars, i) + MinusMove(bars, i) <= TrueRange(bars, i)
  {
    assert WellFormed(bars[i]);
    if i > 0 {
      assert WellFormed(bars[i - 1]);
    }
  }

  // ----- average true range -----

  function TrueRanges(bars: seq<Bar>): (trs: seq<real>)
    ensures |trs| == |bars|
  {
    seq(|bars|, i requires 0 <= i < |bars| => TrueRange(bars, i))
  }

  method ComputeTrueRanges(bars: seq<Bar>) returns (trs: seq<real>)
    ensures trs == TrueRanges(bars)
  {
    trs := [];
    for i := 0 to |bars|
      invariant trs == TrueRanges(bars)[..i]
    {
      if i == 0 {
        trs := trs + [bars[i].high - bars[i].low];
      } else {
        trs := trs + [Max(Max(bars[i].high - bars[i].low, Abs(bars[i].high - bars[i - 1].close)),
                          Abs(bars[i].low - bars[i - 1].close))];
      }
    }
  }

  /** The mean of the last `period` true ranges. */
  method Atr(bars: seq<Bar>, period: nat) returns (out: Series)
    requires 0 < period
    ensures IsSma(out, TrueRanges(bars), period)
  {
    var trs := ComputeTrueRanges(bars);
    out := RunningMeans(trs, period);
  }

  // ----- Wilder's smoothing -----

  /** The sum form: the first `period` terms after the first bar, then a fixed share leaves
      with every step. */
  function Smoothed(terms: seq<real>, period: nat, i: nat): real
    requires 0 < period <= i < |terms|
  {
    if i == period then Sum(terms[1..period + 1])
    else
      var prev := Smoothed(terms, period, i - 1);
      prev - prev / period as real + terms[i]
  }

  /** The average form: the old average keeps all but one share. */
  function WilderNext(prev: real, x: real, period: nat): real
    requires 0 < period
  {
    (prev * (period as real - 1.0) + x) / period as real
  }

  /** An average of two values in `[low, high]` stays there. */
  lemma WilderNextAtLeast(prev: real, x: real, period: nat, low: real)
    requires 0 < period && low <= prev && low <= x
    ensures low <= WilderNext(prev, x, period)
  {
    var n := period as real;
    ScaleLeq(low, prev, n - 1.0);
    assert n * low == low * (n - 1.0) + low;
    QuotientAtLeast(prev * (n - 1.0) + x, n, low);
  }

  lemma WilderNextAtMost(prev: real, x: real, period: nat, high: real)
    requires 0 < period && prev <= high && x <= high
    ensures WilderNext(prev, x, period) <= high
  {
    var n := period as real;
    ScaleLeq(prev, high, n - 1.0);
    assert n * high == high * (n - 1.0) + high;
    QuotientAtMost(prev * (n - 1.0) + x, n, high);
  }

  function PlusMoves(bars: seq<Bar>): (ms: seq<real>)
    ensures |ms| == |bars|
  {
    seq(|bars|, i requires 0 <= i < |bars| => PlusMove(bars, i))
  }

  function MinusMoves(bars: seq<Bar>): (ms: seq<real>)
    ensures |ms| == |bars|
  {
    seq(|bars|, i requires 0 <= i < |bars| => MinusMove(bars, i))
  }

  lemma ShareLeaves(x: real, n: real)
    requires 1.0 <= n && 0.0 <= x
    ensures 0.0 <= x - x / n <= x
  {
    QuotientAtLeast(x, n, 0.0);
    ScaleLeq(1.0, n, x);
    QuotientAtMost(x, n, x);
  }

  lemma StepWithinRange(p: real, m: real, t: real, n: real)
    requires 1.0 <= n && 0.0 <= p && 0.0 <= m && p + m <= t
    ensures 0.0 <= p - p / n && 0.0 <= m - m / n && (p - p / n) + (m - m / n) <= t - t / n
  {
    ShareLeaves(p, n);
    ShareLeaves(m, n);
    ShareLeaves(t - p - m, n);
    assert (t - p - m) / n == t / n - p / n - m / n;
  }

  lemma {:induction false} SumOrdered(a: seq<real>, b: seq<real>, c: seq<real>)
    requires |a| == |b| == |c|
    requires forall i :: 0 <= i < |a| ==> 0.0 <= a[i] && 0.0 <= b[i] && a[i] + b[i] <= c[i]
    ensures 0.0 <= Sum(a) && 0.0 <= Sum(b) && Sum(a) + Sum(b) <= Sum(c)
  {
    if a != [] {
      var n := |a| - 1;
      SumOrdered(a[..n], b[..n], c[..n]);
    }
  }

  /** The smoothed movements stay non-negative and together inside the smoothed true range:
      the invariant that bounds the directional indicators. */
  lemma {:induction false} SmoothedWithinRange(bars: seq<Bar>, period: nat, i: nat)
    requires 0 < period <= i < |bars| && AllWellFormed(bars)
    ensures var p, m := Smoothed(PlusMoves(bars), period, i), Smoothed(MinusMoves(bars), period, i);
            var t := Smoothed(TrueRanges(bars), period, i);
            0.0 <= p && 0.0 <= m && p + m <= t
  {
    if i == period {
      forall j | 0 <= j < |bars|
        ensures 0.0 <= PlusMoves(bars)[j] && 0.0 <= MinusMoves(bars)[j]
        ensures PlusMoves(bars)[j] + MinusMoves(bars)[j] <= TrueRanges(bars)[j]
      {
        MovesWithinRange(bars, j);
      }
      SumOrdered(PlusMoves(bars)[1..period + 1], MinusMoves(bars)[1..period + 1], TrueRanges(bars)[1..period + 1]);
    } else {
      SmoothedWithinRange(bars, period, i - 1);
      MovesWithinRange(bars, i);
      StepWithinRange(Smoothed(PlusMoves(bars), period, i - 1), Smoothed(MinusMoves(bars), period, i - 1),
                      Smoothed(TrueRanges(bars), period, i - 1), period as real);
    }
  }

  // ----- average directional index -----

  function Di(moves: seq<real>, ranges: seq<real>, period: nat, i: nat): real
    requires 0 < period <= i < |moves| == |ranges|
  {
    if Smoothed(ranges, period, i) == 0.0 then 0.0
    else 100.0 * Smoothed(moves, period, i) / Smoothed(ranges, period, i)
  }

  function PlusDi(bars: seq<Bar>, period: nat, i: nat): real
    requires 0 < period <= i < |bars|
  {
    Di(PlusMoves(bars), TrueRanges(bars), period, i)
  }

  function MinusDi(bars: seq<Bar>, period: nat, i: nat): real
    requires 0 < period <= i < |bars|
  {
    Di(MinusMoves(bars), TrueRanges(bars), period, i)
  }

  function DxOf(plus: real, minus: real): real {
    if plus + minus == 0.0 then 0.0 else Abs(plus - minus) / (plus + minus) * 100.0
  }

  function Dx(bars: seq<Bar>, period: nat, i: nat): real
    requires 0 < period <= i < |bars|
  {
    DxOf(PlusDi(bars, period, i), MinusDi(bars, period, i))
  }

  /** The directional indices of bars `period` up to `n`. */
  function Dxs(bars: seq<Bar>, period: nat, n: nat): (s: seq<real>)
    requires 0 < period <= n <= |bars|
    ensures |s| == n - period
  {
    seq(n - period, j requires 0 <= j < n - period => Dx(bars, period, period + j))
  }

  /** A mean of the first `period` indices, then Wilder's average. */
  function AdxValue(bars: seq<Bar>, period: nat, i: nat): real
    requires 0 < period && 2 * period - 1 <= i < |bars|
  {
    if i == 2 * period - 1 then Mean(Dxs(bars, period, i + 1))
    else WilderNext(AdxValue(bars, period, i - 1), Dx(bars, period, i), period)
  }

  lemma DiWithinHundred(p: real, m: real, t: real)
    requires 0.0 <= p && 0.0 <= m && p + m <= t && t != 0.0
    ensures 0.0 <= 100.0 * p / t && 0.0 <= 100.0 * m / t && 100.0 * p / t + 100.0 * m / t <= 100.0
  {
    QuotientAtLeast(100.0 * p, t, 0.0);
    QuotientAtLeast(100.0 * m, t, 0.0);
    QuotientAtMost(100.0 * p + 100.0 * m, t, 100.0);
    assert (100.0 * p + 100.0 * m) / t == 100.0 * p / t + 100.0 * m / t;
  }

  /** On well-formed bars the two directional indicators are shares of the true range: neither
      is negative and together they never pass 100. */
  lemma DirectionalIndicatorsWithin(bars: seq<Bar>, period: nat, i: nat)
    requires 0 < period <= i < |bars| && AllWellFormed(bars)
    ensures 0.0 <= PlusDi(bars, period, i) && 0.0 <= MinusDi(bars, period, i)
    ensures PlusDi(bars, period, i) + MinusDi(bars, period, i) <= 100.0
  {
    SmoothedWithinRange(bars, period, i);
    if Smoothed(TrueRanges(bars), period, i) != 0.0 {
      DiWithinHundred(Smoothed(PlusMoves(bars), period, i), Smoothed(MinusMoves(bars), period, i),
                      Smoothed(TrueRanges(bars), period, i));
    }
  }

  lemma DxOfWithin(plus: real, minus: real)
    requires 0.0 <= plus && 0.0 <= minus
    ensures 0.0 <= DxOf(plus, minus) <= 100.0
  {
    if plus + minus != 0.0 {
      QuotientAtLeast(Abs(plus - minus), plus + minus, 0.0);
      QuotientAtMost(Abs(plus - minus), plus + minus, 1.0);
    }
  }

  lemma DxWithin(bars: seq<Bar>, period: nat, i: nat)
    requires 0 < period <= i < |bars| && AllWellFormed(bars)
    ensures 0.0 <= Dx(bars, period, i) <= 100.0
  {
    DirectionalIndicatorsWithin(bars, period, i);
    DxOfWithin(PlusDi(bars, period, i), MinusDi(bars, period, i));
  }

  lemma {:induction false} AdxWithin(bars: seq<Bar>, period: nat, i: nat)
    requires 0 < period && 2 * period - 1 <= i < |bars| && AllWellFormed(bars)
    ensures 0.0 <= AdxValue(bars, period, i) <= 100.0
  {
    if i == 2 * period - 1 {
      var dxs := Dxs(bars, period, i + 1);
      forall j | 0 <= j < |dxs|
        ensures 0.0 <= dxs[j] <= 100.0
      {
        DxWithin(bars, period, period + j);
      }
      MeanWithin(dxs, 0.0, 100.0);
    } else {
      AdxWithin(bars, period, i - 1);
      DxWithin(bars, period, i);
      WilderNextAtLeast(AdxValue(bars, period, i - 1), Dx(bars, period, i), period, 0.0);
      WilderNextAtMost(AdxValue(bars, period, i - 1), Dx(bars, period, i), period, 100.0);
    }
  }

  datatype AdxSeries = AdxSeries(adx: Series, plus: Series, minus: Series)

  ghost predicate IsAdx(out: AdxSeries, bars: seq<Bar>, period: nat, n: nat)
    requires 0 < period && n <= |bars|
  {
    && |out.adx| == |out.plus| == |out.minus| == n
    && forall i :: 0 <= i < n ==>
      && out.plus[i] == (if i < period then None else Some(PlusDi(bars, period, i)))
      && out.minus[i] == (if i < period then None else Some(MinusDi(bars, period, i)))
      && out.adx[i] == (if i < 2 * period - 1 then None else Some(AdxValue(bars, period, i)))
  }

  method ComputeMoves(bars: seq<Bar>) returns (plus: seq<real>, minus: seq<real>)
    ensures plus == PlusMoves(bars) && minus == MinusMoves(bars)
  {
    plus, minus := [], [];
    for i := 0 to |bars|
      invariant plus == PlusMoves(bars)[..i] && minus == MinusMoves(bars)[..i]
    {
      if i == 0 {
        plus, minus := plus + [0.0], minus + [0.0];
      } else {
        var up := bars[i].high - bars[i - 1].high;
        var down := bars[i - 1].low - bars[i].low;
        plus := plus + [if up > down && up > 0.0 then up else 0.0];
        minus := minus + [if down > up && down > 0.0 then down else 0.0];
      }
    }
  }

  /** The index of one bar and its running average. The lookup of the previous average always
      finds one: it is needed only once `period` indices are behind it. */
  method NextAdx(bars: seq<Bar>, period: nat, i: nat, dxs: seq<real>, adx: Series) returns (value: Option<real>)
    requires 0 < period <= i < |bars| && dxs == Dxs(bars, period, i + 1) && |adx| == i
    requires forall j :: 0 <= j < i ==> adx[j] == (if j < 2 * period - 1 then None else Some(AdxValue(bars, period, j)))
    ensures value == if i < 2 * period - 1 then None else Some(AdxValue(bars, period, i))
  {
    value := None;
    if |dxs| == period {
      value := Some(Sum(dxs) / period as real);
    } else if |dxs| > period {
      var prev := adx[i - 1];
      assert prev == Some(AdxValue(bars, period, i - 1));
      assert dxs[|dxs| - 1] == Dx(bars, period, i);
      value := Some(WilderNext(prev.value, dxs[|dxs| - 1], period));
    }
  }

  /** The running sums of one bar, and the two indicators read off them. */
  method SmoothStep(bars: seq<Bar>, period: nat, i: nat, trs: seq<real>, plus: seq<real>, minus: seq<real>,
                    atrS: real, plusS: real, minusS: real)
    returns (atrNext: real, plusNext: real, minusNext: real, pdi: real, mdi: real)
    requires 0 < period <= i < |bars|
    requires trs == TrueRanges(bars) && plus == PlusMoves(bars) && minus == MinusMoves(bars)
    requires var last := if i == period then period else i - 1;
      atrS == Smoothed(trs, period, last) && plusS == Smoothed(plus, period, last)
      && minusS == Smoothed(minus, period, last)
    ensures atrNext == Smoothed(trs, period, i)
    ensures plusNext == Smoothed(plus, period, i) && minusNext == Smoothed(minus, period, i)
    ensures pdi == PlusDi(bars, period, i) && mdi == MinusDi(bars, period, i)
  {
    atrNext, plusNext, minusNext := atrS, plusS, minusS;
    if i > period {
      atrNext := atrS - atrS / period as real + trs[i];
      plusNext := plusS - plusS / period as real + plus[i];
      minusNext := minusS - minusS / period as real + minus[i];
    }
    pdi := if atrNext == 0.0 then 0.0 else 100.0 * plusNext / atrNext;
    mdi := if atrNext == 0.0 then 0.0 else 100.0 * minusNext / atrNext;
  }

  method Adx(bars: seq<Bar>, period: nat) returns (out: AdxSeries)
    requires 0 < period
    ensures IsAdx(out, bars, period, |bars|)
  {
    if |bars| <= period {
      var none: Series := seq(|bars|, _ => None);
      return AdxSeries(none, none, none);
    }
    var trs := ComputeTrueRanges(bars);
    var plus, minus := ComputeMoves(bars);
    var atrS, plusS, minusS := Sum(trs[1..period + 1]), Sum(plus[1..period + 1]), Sum(minus[1..period + 1]);
    var none: Series := seq(period, _ => None);
    out := AdxSeries(none, none, none);
    var dxs: seq<real> := [];
    for i := period to |bars|
      invariant IsAdx(out, bars, period, i) && dxs == Dxs(bars, period, i)
      invariant var last := if i == period then period else i - 1;
        atrS == Smoothed(trs, period, last) && plusS == Smoothed(plus, period, last)
        && minusS == Smoothed(minus, period, last)
    {
      var pdi, mdi;
      atrS, plusS, minusS, pdi, mdi := SmoothStep(bars, period, i, trs, plus, minus, atrS, plusS, minusS);
      DxsGrow(bars, period, i);
      dxs := dxs + [DxOf(pdi, mdi)];
      var value := NextAdx(bars, period, i, dxs, out.adx);
      AdxGrows(out, bars, period, i, value);
      out := AdxSeries(out.adx + [value], out.plus + [Some(pdi)], out.minus + [Some(mdi)]);
    }
  }

  lemma AdxGrows(out: AdxSeries, bars: seq<Bar>, period: nat, i: nat, value: Option<real>)
    requires 0 < period <= i < |bars| && IsAdx(out, bars, period, i)
    requires value == if i < 2 * period - 1 then None else Some(AdxValue(bars, period, i))
    ensures IsAdx(AdxSeries(out.adx + [value], out.plus + [Some(PlusDi(bars, period, i))],
                            out.minus + [Some(MinusDi(bars, period, i))]), bars, period, i + 1)
  {
  }

  lemma DxsGrow(bars: seq<Bar>, period: nat, n: nat)
    requires 0 < period <= n < |bars|
    ensures Dxs(bars, period, n + 1) == Dxs(bars, period, n) + [Dx(bars, period, n)]
  {
  }

  // ----- relative strength -----

  function Gain(values: seq<real>, i: nat): real
    requires 0 < i < |values|
  {
    Max(values[i] - values[i - 1], 0.0)
  }

  function Loss(values: seq<real>, i: nat): real
    requires 0 < i < |values|
  {
    Max(-(values[i] - values[i - 1]), 0.0)
  }

  /** Gains, or losses, of bars `1` to `n`. */
  function Moves(values: seq<real>, gains: bool, n: nat): (s: seq<real>)
    requires n < |values|
    ensures |s| == n
  {
    seq(n, j requires 0 <= j < n => if gains then Gain(values, j + 1) else Loss(values, j + 1))
  }

  /** A mean of the first `period` moves, then Wilder's average. */
  function AverageMove(values: seq<real>, gains: bool, period: nat, i: nat): real
    requires 0 < period <= i < |values|
  {
    if i == period then Mean(Moves(values, gains, period))
    else WilderNext(AverageMove(values, gains, period, i - 1),
                    if gains then Gain(values, i) else Loss(values, i), period)
  }

  /** The index of two averages; meaningful for averages that are not negative. */
  function Strength(gain: real, loss: real): real
    requires 0.0 <= gain && 0.0 <= loss
  {
    if loss == 0.0 then 100.0
    else
      QuotientAtLeast(gain, loss, 0.0);
      100.0 - 100.0 / (1.0 + gain / loss)
  }

  lemma {:induction false} AverageMoveNonNegative(values: seq<real>, gains: bool, period: nat, i: nat)
    requires 0 < period <= i < |values|
    ensures 0.0 <= AverageMove(values, gains, period, i)
  {
    if i == period {
      var moves := Moves(values, gains, period);
      SumOrdered(moves, seq(|moves|, _ => 0.0), moves);
      QuotientAtLeast(Sum(moves), period as real, 0.0);
    } else {
      AverageMoveNonNegative(values, gains, period, i - 1);
      var move := if gains then Gain(values, i) else Loss(values, i);
      WilderNextAtLeast(AverageMove(values, gains, period, i - 1), move, period, 0.0);
    }
  }

  function RsiAt(values: seq<real>, period: nat, i: nat): Option<real>
    requires 0 < period && i < |values|
  {
    if i < period then None
    else
      AverageMoveNonNegative(values, true, period, i);
      AverageMoveNonNegative(values, false, period, i);
      Some(Strength(AverageMove(values, true, period, i), AverageMove(values, false, period, i)))
  }

  /** The index never leaves `[0, 100]`, whatever the prices. */
  lemma RsiWithin(values: seq<real>, period: nat, i: nat)
    requires 0 < period <= i < |values|
    ensures 0.0 <= RsiAt(values, period, i).value <= 100.0
  {
    AverageMoveNonNegative(values, true, period, i);
    AverageMoveNonNegative(values, false, period, i);
    var gain, loss := AverageMove(values, true, period, i), AverageMove(values, false, period, i);
    if loss != 0.0 {
      QuotientAtLeast(gain, loss, 0.0);
      QuotientAtLeast(100.0, 1.0 + gain / loss, 0.0);
      QuotientAtMost(100.0, 1.0 + gain / loss, 100.0);
    }
  }

  /** The seeding loop: gains and losses of the first `period` bars, added up separately. */
  method SeedMoves(values: seq<real>, period: nat) returns (gains: real, losses: real)
    requires 0 < period < |values|
    ensures gains == Sum(Moves(values, true, period)) && losses == Sum(Moves(values, false, period))
  {
    gains, losses := 0.0, 0.0;
    for i := 1 to period + 1
      invariant gains == Sum(Moves(values, true, i - 1)) && losses == Sum(Moves(values, false, i - 1))
    {
      var delta := values[i] - values[i - 1];
      SumOne(Moves(values, true, i - 1), Gain(values, i));
      SumOne(Moves(values, false, i - 1), Loss(values, i));
      assert Moves(values, true, i) == Moves(values, true, i - 1) + [Gain(values, i)];
      assert Moves(values, false, i) == Moves(values, false, i - 1) + [Loss(values, i)];
      if delta >= 0.0 {
        gains := gains + delta;
      } else {
        losses := losses - delta;
      }
    }
  }

  method Rsi(values: seq<real>, period: nat) returns (out: Series)
    requires 0 < period
    ensures |out| == |values| && forall i :: 0 <= i < |values| ==> out[i] == RsiAt(values, period, i)
  {
    if |values| <= period {
      return seq(|values|, _ => None);
    }
    var gains, losses := SeedMoves(values, period);
    var avgGain, avgLoss := gains / period as real, losses / period as real;
    out := seq(period, _ => None);
    AverageMoveNonNegative(values, true, period, period);
    AverageMoveNonNegative(values, false, period, period);
    out := out + [Some(Strength(avgGain, avgLoss))];
    for i := period + 1 to |values|
      invariant |out| == i
      invariant avgGain == AverageMove(values, true, period, i - 1)
      invariant avgLoss == AverageMove(values, false, period, i - 1)
      invariant forall j :: 0 <= j < i ==> out[j] == RsiAt(values, period, j)
    {
      avgGain := WilderNext(avgGain, Gain(values, i), period);
      avgLoss := WilderNext(avgLoss, Loss(values, i), period);
      AverageMoveNonNegative(values, true, period, i);
      AverageMoveNonNegative(values, false, period, i);
      out := out + [Some(Strength(avgGain, avgLoss))];
    }
  }

  // ----- volume-weighted average price -----

  function Worth(b: Bar, volume: real): real { (b.high + b.low + b.close) / 3.0 * volume }

  function Traded(bars: seq<Bar>, volumes: seq<real>, n: nat): real
    requires n <= |bars| == |volumes|
  {
    if n == 0 then 0.0 else Traded(bars, volumes, n - 1) + Worth(bars[n - 1], volumes[n - 1])
  }

  function Volume(volumes: seq<real>, n: nat): real
    requires n <= |volumes|
  {
    if n == 0 then 0.0 else Volume(volumes, n - 1) + volumes[n - 1]
  }

  function VwapAt(bars: seq<Bar>, volumes: seq<real>, i: nat): Option<real>
    requires i < |bars| == |volumes|
  {
    if Volume(volumes, i + 1) == 0.0 then None else Some(Traded(bars, volumes, i + 1) / Volume(volumes, i + 1))
  }

  method Vwap(bars: seq<Bar>, volumes: seq<real>) returns (out: Series)
    requires |bars| == |volumes|
    ensures |out| == |bars| && forall i :: 0 <= i < |bars| ==> out[i] == VwapAt(bars, volumes, i)
  {
    out := [];
    var pv, volume := 0.0, 0.0;
    for i := 0 to |bars|
      invariant |out| == i && pv == Traded(bars, volumes, i) && volume == Volume(volumes, i)
      invariant forall j :: 0 <= j < i ==> out[j] == VwapAt(bars, volumes, j)
    {
      pv := pv + Worth(bars[i], volumes[i]);
      volume := volume + volumes[i];
      out := out + [if volume == 0.0 then None else Some(pv / volume)];
    }
  }

  /** A traded value whose average price lies inside the bounds. */
  predicate PricedWithin(traded: real, volume: real, low: real, high: real) {
    volume * low <= traded <= volume * high
  }

  /** One more trade inside the bounds keeps the sum inside them. */
  lemma TradeAdds(traded: real, volume: real, b: Bar, v: real, low: real, high: real)
    requires PricedWithin(traded, volume, low, high) && 0.0 <= v
    requires WellFormed(b) && low <= b.low && b.high <= high
    ensures PricedWithin(traded + Worth(b, v), volume + v, low, high)
  {
    var price := (b.high + b.low + b.close) / 3.0;
    ScaleLeq(low, price, v);
    ScaleLeq(price, high, v);
    assert (volume + v) * low == volume * low + low * v;
    assert (volume + v) * high == volume * high + high * v;
  }

  lemma {:induction false} TradedWithin(bars: seq<Bar>, volumes: seq<real>, n: nat, low: real, high: real)
    requires n <= |bars| == |volumes| && AllWellFormed(bars)
    requires forall i :: 0 <= i < n ==> low <= bars[i].low && bars[i].high <= high && 0.0 <= volumes[i]
    ensures 0.0 <= Volume(volumes, n)
    ensures PricedWithin(Traded(bars, volumes, n), Volume(volumes, n), low, high)
  {
    if n > 0 {
      TradedWithin(bars, volumes, n - 1, low, high);
      TradeAdds(Traded(bars, volumes, n - 1), Volume(volumes, n - 1), bars[n - 1], volumes[n - 1], low, high);
    }
  }

  lemma QuotientBetween(x: real, n: real, low: real, high: real)
    requires n > 0.0 && PricedWithin(x, n, low, high)
    ensures low <= x / n <= high
  {
    QuotientAtLeast(x, n, low);
    QuotientAtMost(x, n, high);
  }

  /** Wherever it is defined, the volume-weighted price lies between the lowest low and the
      highest high so far. */
  lemma VwapWithin(bars: seq<Bar>, volumes: seq<real>, i: nat, low: real, high: real)
    requires i < |bars| == |volumes| && AllWellFormed(bars) && VwapAt(bars, volumes, i).Some?
    requires forall j :: 0 <= j <= i ==> low <= bars[j].low && bars[j].high <= high && 0.0 <= volumes[j]
    ensures low <= VwapAt(bars, volumes, i).value <= high
  {
    TradedWithin(bars, volumes, i + 1, low, high);
    QuotientBetween(Traded(bars, volumes, i + 1), Volume(volumes, i + 1), low, high);
  }
}
