/** The moving-average indicators: loops with running sums, against what they define. */
module Indicators {
  import opened Prelude
  import opened Windows

  type Series = seq<Option<real>>

  // ----- simple moving average -----

  /** The mean of exactly the last `period` values, once there are that many. */
  function SmaAt(values: seq<real>, period: nat, i: nat): Option<real>
    requires 0 < period && i < |values|
  {
    if i < period - 1 then None else Some(Mean(values[i + 1 - period..i + 1]))
  }

  ghost predicate IsSma(out: Series, values: seq<real>, period: nat) {
    0 < period && |out| == |values| && forall i :: 0 <= i < |values| ==> out[i] == SmaAt(values, period, i)
  }

  /** The window the running sum covers after `n` values. */
  function Trailing(values: seq<real>, period: nat, n: nat): seq<real>
    requires n <= |values|
  {
    values[if n < period then 0 else n - period..n]
  }

  /** One more value: the running sum moves with the window, and read off it is the average. */
  lemma RunningSum(values: seq<real>, period: nat, n: nat)
    requires 0 < period && n < |values|
    ensures Sum(Trailing(values, period, n + 1))
         == Sum(Trailing(values, period, n)) + values[n] - (if n >= period then values[n - period] else 0.0)
    ensures SmaAt(values, period, n)
         == if n < period - 1 then None else Some(Sum(Trailing(values, period, n + 1)) / period as real)
  {
    if n < period {
      assert Trailing(values, period, n + 1) == Trailing(values, period, n) + [values[n]];
      SumOne(Trailing(values, period, n), values[n]);
    } else {
      SumSlides(values, n - period, n);
    }
  }

  /** The running-sum loop, shared with the average true range. */
  method RunningMeans(values: seq<real>, period: nat) returns (out: Series)
    requires 0 < period
    ensures IsSma(out, values, period)
  {
    out := [];
    var running := 0.0;
    for i := 0 to |values|
      invariant |out| == i && running == Sum(Trailing(values, period, i))
      invariant forall j :: 0 <= j < i ==> out[j] == SmaAt(values, period, j)
    {
      RunningSum(values, period, i);
      running := running + values[i];
      if i >= period {
        running := running - values[i - period];
      }
      out := out + [if i >= period - 1 then Some(running / period as real) else None];
    }
  }

  /** `None` stands for the error on a period that is not positive. */
  method Sma(values: seq<real>, period: int) returns (out: Option<Series>)
    ensures out.None? <==> period <= 0
    ensures out.Some? ==> IsSma(out.value, values, period)
  {
    if period <= 0 {
      return None;
    }
    var series := RunningMeans(values, period);
    out := Some(series);
  }

  // ----- exponential moving average -----

  /** Seeded with the first full mean, then moved towards each value by `2 / (period + 1)`. */
  function EmaValue(values: seq<real>, period: nat, i: nat): real
    requires 0 < period && period - 1 <= i < |values|
  {
    if i == period - 1 then Mean(values[..period])
    else
      var prev := EmaValue(values, period, i - 1);
      (values[i] - prev) * (2.0 / (period as real + 1.0)) + prev
  }

  function EmaAt(values: seq<real>, period: nat, i: nat): Option<real>
    requires 0 < period && i < |values|
  {
    if i < period - 1 then None else Some(EmaValue(values, period, i))
  }

  ghost predicate IsEma(out: Series, values: seq<real>, period: nat) {
    0 < period && |out| == |values| && forall i :: 0 <= i < |values| ==> out[i] == EmaAt(values, period, i)
  }

  method Ema(values: seq<real>, period: int) returns (out: Option<Series>)
    ensures out.None? <==> period <= 0
    ensures out.Some? ==> IsEma(out.value, values, period)
  {
    if period <= 0 {
      return None;
    }
    var series: Series := seq(|values|, _ => None);
    if values == [] {
      return Some(series);
    }
    var multiplier := 2.0 / (period as real + 1.0);
    var seed := Sma(values, period);
    var start := period - 1;
    if start >= |values| || seed.value[start].None? {
      return Some(series);
    }
    var prev := seed.value[start].value;
    assert values[0..period] == values[..period];
    series := series[start := Some(prev)];
    for i := start + 1 to |values|
      invariant |series| == |values| && prev == EmaValue(values, period, i - 1)
      invariant forall j :: 0 <= j < i ==> series[j] == EmaAt(values, period, j)
      invariant forall j :: i <= j < |values| ==> series[j] == None
    {
      prev := (values[i] - prev) * multiplier + prev;
      series := series[i := Some(prev)];
    }
    out := Some(series);
  }

  /** A step of a weight in `[0, 1]` from `prev` towards `x` stays between them. */
  lemma StepBetween(prev: real, x: real, weight: real, low: real, high: real)
    requires 0.0 <= weight <= 1.0 && low <= prev <= high && low <= x <= high
    ensures low <= (x - prev) * weight + prev <= high
  {
    Blend(low, low, prev, x, weight);
    Blend(prev, x, high, high, weight);
  }

  /** A blend of larger parts is larger. */
  lemma Blend(a: real, b: real, c: real, d: real, weight: real)
    requires 0.0 <= weight <= 1.0 && a <= c && b <= d
    ensures (b - a) * weight + a <= (d - c) * weight + c
  {
    var u, w := (d - b) * weight, (c - a) * (1.0 - weight);
    NonNegativeProduct(d - b, weight);
    NonNegativeProduct(c - a, 1.0 - weight);
    var lower, upper := (b - a) * weight + a, (d - c) * weight + c;
    assert upper - lower == u + w;
  }

  /** The average never leaves the range of the values it has seen. */
  lemma {:induction false} EmaWithin(values: seq<real>, period: nat, i: nat, low: real, high: real)
    requires 0 < period && period - 1 <= i < |values| && Within(values[..i + 1], low, high)
    ensures low <= EmaValue(values, period, i) <= high
  {
    if i == period - 1 {
      assert values[..i + 1] == values[..period];
      MeanWithin(values[..period], low, high);
    } else {
      assert forall j :: 0 <= j <= i ==> values[..i + 1][j] == values[j];
      EmaWithin(values, period, i - 1, low, high);
      var weight := 2.0 / (period as real + 1.0);
      assert 0.0 <= weight <= 1.0;
      StepBetween(EmaValue(values, period, i - 1), values[i], weight, low, high);
    }
  }

  /** The average of a prefix is the prefix of the average: later values change nothing. */
  lemma {:induction false} EmaPrefix(values: seq<real>, period: nat, k: nat, i: nat)
    requires 0 < period && period - 1 <= i < k <= |values|
    ensures EmaValue(values[..k], period, i) == EmaValue(values, period, i)
  {
    if i == period - 1 {
      assert values[..k][..period] == values[..period];
    } else {
      EmaPrefix(values, period, k, i - 1);
    }
  }

  lemma SmaPrefix(values: seq<real>, period: nat, k: nat, i: nat)
    requires 0 < period && i < k <= |values|
    ensures SmaAt(values[..k], period, i) == SmaAt(values, period, i)
  {
    if i >= period - 1 {
      assert values[..k][i + 1 - period..i + 1] == values[i + 1 - period..i + 1];
    }
  }

  // ----- moving average convergence / divergence -----

  datatype Macd = Macd(line: Series, signal: Series, histogram: Series)

  /** The bar at which the line begins. */
  function LineStart(fast: nat, slow: nat): nat
    requires 0 < fast && 0 < slow
  {
    MaxInt(fast, slow) - 1
  }

  function LineValue(values: seq<real>, fast: nat, slow: nat, i: nat): real
    requires 0 < fast && 0 < slow && LineStart(fast, slow) <= i < |values|
  {
    EmaValue(values, fast, i) - EmaValue(values, slow, i)
  }

  /** The line with its undefined bars dropped. */
  function Compact(values: seq<real>, fast: nat, slow: nat): seq<real>
    requires 0 < fast && 0 < slow
  {
    var start := LineStart(fast, slow);
    if |values| <= start then []
    else seq(|values| - start, j requires 0 <= j < |values| - start => LineValue(values, fast, slow, start + j))
  }

  /** Line, signal and histogram of one bar. The signal is the average of the compacted line,
      read at the place of this bar in it. */
  ghost predicate MacdAt(out: Macd, values: seq<real>, fast: nat, slow: nat, signal: nat, i: nat)
    requires 0 < fast && 0 < slow && 0 < signal && i < |values|
    requires |out.line| == |out.signal| == |out.histogram| == |values|
  {
    var start, compact := LineStart(fast, slow), Compact(values, fast, slow);
    if i < start then out.line[i] == None && out.signal[i] == None && out.histogram[i] == None
    else
      && out.line[i] == Some(LineValue(values, fast, slow, i))
      && out.signal[i] == EmaAt(compact, signal, i - start)
      && out.histogram[i] == if out.signal[i].None? then None else Some(out.line[i].value - out.signal[i].value)
  }

  /** The line, and its defined values alone. */
  method MacdLine(values: seq<real>, fast: nat, slow: nat, fastEma: Series, slowEma: Series)
    returns (line: Series, compact: seq<real>)
    requires IsEma(fastEma, values, fast) && IsEma(slowEma, values, slow)
    ensures compact == Compact(values, fast, slow) && |line| == |values|
    ensures forall i :: 0 <= i < |values| ==>
      line[i] == if i < LineStart(fast, slow) then None else Some(LineValue(values, fast, slow, i))
  {
    line, compact := [], [];
    ghost var start := LineStart(fast, slow);
    for i := 0 to |values|
      invariant |line| == i && |compact| == if i <= start then 0 else i - start
      invariant forall j :: 0 <= j < i ==>
        line[j] == if j < start then None else Some(LineValue(values, fast, slow, j))
      invariant forall j :: 0 <= j < |compact| ==> compact[j] == LineValue(values, fast, slow, start + j)
    {
      var f, s := fastEma[i], slowEma[i];
      if f.Some? && s.Some? {
        line := line + [Some(f.value - s.value)];
        compact := compact + [f.value - s.value];
      } else {
        line := line + [None];
      }
    }
  }

  /** The averages of the defined values dealt back to the bars they belong to. */
  method Realign(line: Series, signals: Series, ghost start: nat) returns (signal: Series, histogram: Series)
    requires forall i :: 0 <= i < |line| ==> (line[i].None? <==> i < start)
    requires |signals| == if |line| <= start then 0 else |line| - start
    ensures |signal| == |histogram| == |line|
    ensures forall i :: 0 <= i < |line| ==>
      && signal[i] == (if i < start then None else signals[i - start])
      && histogram[i] == (if signal[i].None? then None else Some(line[i].value - signal[i].value))
  {
    signal, histogram := [], [];
    var next := 0;
    for i := 0 to |line|
      invariant |signal| == |histogram| == i
      invariant next == if i <= start then 0 else i - start
      invariant forall j :: 0 <= j < i ==>
        && signal[j] == (if j < start then None else signals[j - start])
        && histogram[j] == (if signal[j].None? then None else Some(line[j].value - signal[j].value))
    {
      if line[i].None? {
        signal, histogram := signal + [None], histogram + [None];
      } else {
        var sig := signals[next];
        signal := signal + [sig];
        histogram := histogram + [if sig.Some? then Some(line[i].value - sig.value) else None];
        next := next + 1;
      }
    }
  }

  /** The parts of one bar, as the two loops leave them. */
  lemma BarIsMacd(out: Macd, values: seq<real>, fast: nat, slow: nat, signal: nat, signals: Series, i: nat)
    requires 0 < fast && 0 < slow && 0 < signal && i < |values|
    requires |out.line| == |out.signal| == |out.histogram| == |values|
    requires IsEma(signals, Compact(values, fast, slow), signal)
    requires out.line[i] == if i < LineStart(fast, slow) then None else Some(LineValue(values, fast, slow, i))
    requires out.signal[i] == if i < LineStart(fast, slow) then None else signals[i - LineStart(fast, slow)]
    requires out.histogram[i] == if out.signal[i].None? then None else Some(out.line[i].value - out.signal[i].value)
    ensures MacdAt(out, values, fast, slow, signal, i)
  {
  }

  method MacdOf(values: seq<real>, fast: int, slow: int, signal: int) returns (out: Option<Macd>)
    ensures out.None? <==> fast <= 0 || slow <= 0 || signal <= 0
    ensures out.Some? ==>
      && |out.value.line| == |out.value.signal| == |out.value.histogram| == |values|
      && forall i :: 0 <= i < |values| ==> MacdAt(out.value, values, fast, slow, signal, i)
  {
    var fastEma := Ema(values, fast);
    var slowEma := Ema(values, slow);
    if fastEma.None? || slowEma.None? {
      return None;
    }
    var line, compact := MacdLine(values, fast, slow, fastEma.value, slowEma.value);
    var signals := Ema(compact, signal);
    if signals.None? {
      return None;
    }
    var signalLine, histogram := Realign(line, signals.value, LineStart(fast, slow));
    out := Some(Macd(line, signalLine, histogram));
    forall i | 0 <= i < |values|
      ensures MacdAt(out.value, values, fast, slow, signal, i)
    {
      BarIsMacd(out.value, values, fast, slow, signal, signals.value, i);
    }
  }
}
