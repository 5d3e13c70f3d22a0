/** The strategy signals of the backtest. Each is handed the whole candle series and a bar
    index, and decides on the slice of candles closed by that bar. */
module Signals {
  import opened Prelude
  import opened Candles
  import opened Windows
  import opened Indicators
  import Wilder

  datatype Direction = LONG | SHORT | FLAT

  datatype Signal = Signal(
    direction: Direction, confidence: real, entry: real, stop: Option<real>, target: Option<real>, model: string)

  function Flat(entry: real): Signal { Signal(FLAT, 0.0, entry, None, None, "") }

  /** The candles available at a bar. */
  function Closed(candles: seq<Candle>, index: int): seq<Candle> {
    if index < 0 then []
    else if index + 1 < |candles| then candles[..index + 1]
    else candles
  }

  function LastClose(hist: seq<Candle>): real { if hist == [] then 0.0 else hist[|hist| - 1].close }

  function Bars(hist: seq<Candle>): (bars: seq<Wilder.Bar>)
    ensures |bars| == |hist|
  {
    seq(|hist|, i requires 0 <= i < |hist| => Wilder.Bar(hist[i].high, hist[i].low, hist[i].close))
  }

  function Closes(hist: seq<Candle>): (s: seq<real>)
    ensures |s| == |hist|
  {
    seq(|hist|, i requires 0 <= i < |hist| => hist[i].close)
  }

  function Volumes(hist: seq<Candle>): (s: seq<real>)
    ensures |s| == |hist|
  {
    seq(|hist|, i requires 0 <= i < |hist| => hist[i].volume)
  }

  datatype Strategy =
    | Donchian(lookback: nat, atrMultiple: real, volumeMultiple: real)
    | MeanReversion(period: nat, band: real)
    | TrendFollowing(fast: nat, slow: nat)
    | Structure(lookback: nat)
  {
    predicate Valid() {
      match this
      case Donchian(lookback, _, _) => 0 < lookback
      case MeanReversion(period, _) => 0 < period
      case TrendFollowing(fast, slow) => 0 < fast && 0 < slow
      case Structure(lookback) => 0 < lookback
    }

    /** Candles a signal needs before it can be anything but flat. */
    function Needs(): nat {
      match this
      case Donchian(lookback, _, _) => lookback + 2
      case MeanReversion(period, _) => period + 1
      case TrendFollowing(_, slow) => slow + 2
      case Structure(lookback) => lookback + 2
    }
  }

  /** The candles before the last one, as many as the lookback. */
  function Channel(hist: seq<Candle>, lookback: nat): seq<Candle>
    requires 0 < lookback < |hist|
  {
    hist[|hist| - 1 - lookback..|hist| - 1]
  }

  /** The range a breakout stop is measured in. */
  function DonchianRange(hist: seq<Candle>): real
    requires hist != []
  {
    var atr := SmaAt(Wilder.TrueRanges(Bars(hist)), 14, |hist| - 1);
    if atr.Some? then atr.value else hist[|hist| - 1].close * 0.02
  }

  function DonchianOn(hist: seq<Candle>, lookback: nat, atrMultiple: real, volumeMultiple: real): Signal
    requires 0 < lookback && lookback + 2 <= |hist|
  {
    var last := hist[|hist| - 1];
    var range := DonchianRange(hist);
    var loud := last.volume >= Mean(Volumes(hist[|hist| - lookback..])) * volumeMultiple;
    if last.close > Highest(Channel(hist, lookback)) && loud then
      var stop := last.close - atrMultiple * range;
      Signal(LONG, 0.8, last.close, Some(stop), Some(last.close + 3.0 * (last.close - stop)), "DONCHIAN20")
    else if last.close < Lowest(Channel(hist, lookback)) && loud then
      var stop := last.close + atrMultiple * range;
      Signal(SHORT, 0.8, last.close, Some(stop), Some(last.close - 3.0 * (stop - last.close)), "DONCHIAN20")
    else Flat(last.close)
  }

  function MeanReversionOn(hist: seq<Candle>, period: nat, band: real): Signal
    requires 0 < period && period + 1 <= |hist|
  {
    var last := hist[|hist| - 1];
    var mid := SmaAt(Closes(hist), period, |hist| - 1).value;
    if last.close < mid * (1.0 - band) then
      Signal(LONG, 0.7, last.close, Some(last.close * 0.98), Some(mid), "SMA20_MR")
    else if last.close > mid * (1.0 + band) then
      Signal(SHORT, 0.7, last.close, Some(last.close * 1.02), Some(mid), "SMA20_MR")
    else Flat(last.close)
  }

  function TrendFollowingOn(hist: seq<Candle>, fast: nat, slow: nat): Signal
    requires 0 < fast && 0 < slow && slow + 2 <= |hist|
  {
    var n, closes, last := |hist|, Closes(hist), hist[|hist| - 1];
    var f0, f1 := EmaAt(closes, fast, n - 2), EmaAt(closes, fast, n - 1);
    var s0, s1 := EmaAt(closes, slow, n - 2), EmaAt(closes, slow, n - 1);
    if f1.None? || s1.None? || f0.None? || s0.None? then Flat(last.close)
    else if f0.value <= s0.value && f1.value > s1.value then
      Signal(LONG, 0.75, last.close, Some(last.close * 0.97), Some(last.close * 1.09), "EMA_CROSS")
    else if f0.value >= s0.value && f1.value < s1.value then
      Signal(SHORT, 0.75, last.close, Some(last.close * 1.03), Some(last.close * 0.91), "EMA_CROSS")
    else Flat(last.close)
  }

  function StructureOn(hist: seq<Candle>, lookback: nat): Signal
    requires 0 < lookback && lookback + 2 <= |hist|
  {
    var last, high, low := hist[|hist| - 1], Highest(Channel(hist, lookback)), Lowest(Channel(hist, lookback));
    if last.close > high then
      Signal(LONG, 0.72, last.close, Some(low), Some(last.close + 2.0 * (last.close - low)), "SMC_OB")
    else if last.close < low then
      Signal(SHORT, 0.72, last.close, Some(high), Some(last.close - 2.0 * (high - last.close)), "SMC_OB")
    else Flat(last.close)
  }

  function SignalFor(s: Strategy, candles: seq<Candle>, index: int): Signal
    requires s.Valid()
  {
    var hist := Closed(candles, index);
    if |hist| < s.Needs() then Flat(LastClose(hist))
    else
      match s
      case Donchian(lookback, atrMultiple, volumeMultiple) => DonchianOn(hist, lookback, atrMultiple, volumeMultiple)
      case MeanReversion(period, band) => MeanReversionOn(hist, period, band)
      case TrendFollowing(fast, slow) => TrendFollowingOn(hist, fast, slow)
      case Structure(lookback) => StructureOn(hist, lookback)
  }

  /** Whether a name occurs in an id. */
  predicate Mentions(id: string, name: string) {
    exists i :: 0 <= i <= |id| && name <= id[i..]
  }

  /** Which strategy an id, in lower case, selects; anything unrecognised is a breakout. */
  function StrategyOf(id: string, lookback: nat, atrMultiple: real, volumeMultiple: real, period: nat): Strategy {
    if Mentions(id, "momentum") || Mentions(id, "breakout") then Donchian(lookback, atrMultiple, volumeMultiple)
    else if Mentions(id, "mean_reversion") then MeanReversion(period, 0.02)
    else if Mentions(id, "trend") || Mentions(id, "commodit") then TrendFollowing(20, 50)
    else if Mentions(id, "smc") || Mentions(id, "po3") || Mentions(id, "vwap") then Structure(10)
    else Donchian(20, 2.0, 1.0)
  }

  lemma ClosedPrefix(a: seq<Candle>, b: seq<Candle>, k: nat, index: nat)
    requires index < k <= |a| && k <= |b| && a[..k] == b[..k]
    ensures Closed(a, index) == Closed(b, index) == a[..index + 1]
  {
    assert a[..index + 1] == a[..k][..index + 1];
    assert b[..index + 1] == b[..k][..index + 1];
  }

  /** A structure break is exactly a close beyond every bar of the lookback, and its stop lies at
      or beyond them all on the other side. */
  lemma StructureBreakIff(hist: seq<Candle>, lookback: nat)
    requires 0 < lookback && lookback + 2 <= |hist|
    ensures var s, n := StructureOn(hist, lookback), |hist| - 1;
            var above := forall i :: n - lookback <= i < n ==> hist[i].high < hist[n].close;
            var below := forall i :: n - lookback <= i < n ==> hist[n].close < hist[i].low;
            && (s.direction == LONG <==> above)
            && (s.direction == SHORT <==> below && !above)
            && (s.direction == LONG ==> forall i :: n - lookback <= i < n ==> s.stop.value <= hist[i].low)
            && (s.direction == SHORT ==> forall i :: n - lookback <= i < n ==> hist[i].high <= s.stop.value)
  {
    var window, n := Channel(hist, lookback), |hist| - 1;
    HighestBounds(window);
    LowestBounds(window);
    assert forall i :: 0 <= i < lookback ==> window[i] == hist[n - lookback + i];
    assert forall i :: n - lookback <= i < n ==> hist[i] == window[i - (n - lookback)];
  }

  /** The last bar trades at least a multiple of the mean volume of the last bars, itself included. */
  predicate Loud(hist: seq<Candle>, lookback: nat, multiple: real)
    requires 0 < lookback <= |hist|
  {
    Mean(Volumes(hist[|hist| - lookback..])) * multiple <= hist[|hist| - 1].volume
  }

  lemma ChannelBounds(hist: seq<Candle>, lookback: nat)
    requires 0 < lookback < |hist|
    ensures var close, n := hist[|hist| - 1].close, |hist| - 1;
            && (close > Highest(Channel(hist, lookback))
                <==> forall i :: n - lookback <= i < n ==> hist[i].high < close)
            && (close < Lowest(Channel(hist, lookback))
                <==> forall i :: n - lookback <= i < n ==> close < hist[i].low)
  {
    var window, n := Channel(hist, lookback), |hist| - 1;
    HighestBounds(window);
    LowestBounds(window);
    assert forall i :: 0 <= i < lookback ==> window[i] == hist[n - lookback + i];
    assert forall i :: n - lookback <= i < n ==> hist[i] == window[i - (n - lookback)];
  }

  /** A breakout is exactly a close beyond every bar of the channel on enough volume. */
  lemma BreakoutIff(hist: seq<Candle>, lookback: nat, atrMultiple: real, volumeMultiple: real)
    requires 0 < lookback && lookback + 2 <= |hist|
    ensures var d, n := DonchianOn(hist, lookback, atrMultiple, volumeMultiple).direction, |hist| - 1;
            var above := forall i :: n - lookback <= i < n ==> hist[i].high < hist[n].close;
            var below := forall i :: n - lookback <= i < n ==> hist[n].close < hist[i].low;
            && (d == LONG <==> above && Loud(hist, lookback, volumeMultiple))
            && (d == SHORT <==> below && !above && Loud(hist, lookback, volumeMultiple))
  {
    ChannelBounds(hist, lookback);
  }

  /** Its stop lies a multiple of the range away and its target three times as far on the other side. */
  lemma BreakoutBracket(hist: seq<Candle>, lookback: nat, atrMultiple: real, volumeMultiple: real)
    requires 0 < lookback && lookback + 2 <= |hist|
    ensures var s, close := DonchianOn(hist, lookback, atrMultiple, volumeMultiple), hist[|hist| - 1].close;
            var away := atrMultiple * DonchianRange(hist);
            && s.entry == close
            && (s.direction == LONG ==> s.stop == Some(close - away) && s.target == Some(close + 3.0 * away))
            && (s.direction == SHORT ==> s.stop == Some(close + away) && s.target == Some(close - 3.0 * away))
  {
  }

  /** The range is the mean of the last fourteen true ranges, and two percent of the close where there
      are not as many. */
  lemma RangeIs(hist: seq<Candle>)
    requires hist != []
    ensures var n := |hist|;
            if 14 <= n then DonchianRange(hist) * 14.0 == Sum(Wilder.TrueRanges(Bars(hist))[n - 14..])
            else DonchianRange(hist) * 50.0 == hist[n - 1].close
  {
    var n, ranges := |hist|, Wilder.TrueRanges(Bars(hist));
    if 14 <= n {
      assert ranges[n - 14..n] == ranges[n - 14..];
    }
  }

  /** Mean reversion buys a close more than the band below the mean of the last closes and sells one
      more than the band above it, back to the mean, with a stop two percent away. */
  lemma ReversionIff(hist: seq<Candle>, period: nat, band: real)
    requires 0 < period && period + 1 <= |hist|
    ensures var s, close := MeanReversionOn(hist, period, band), hist[|hist| - 1].close;
            var mean := Mean(Closes(hist)[|hist| - period..]);
            && (s.direction == LONG <==> close < mean - mean * band)
            && (s.direction == SHORT <==> mean + mean * band < close && !(close < mean - mean * band))
            && (s.direction != FLAT ==> s.target == Some(mean) && s.stop.Some?)
            && (s.direction == LONG ==> 100.0 * s.stop.value == 98.0 * close)
            && (s.direction == SHORT ==> 100.0 * s.stop.value == 102.0 * close)
  {
    var closes := Closes(hist);
    assert closes[|hist| - period..|hist|] == closes[|hist| - period..];
    var mean := Mean(closes[|hist| - period..]);
    assert mean * (1.0 - band) == mean - mean * band && mean * (1.0 + band) == mean + mean * band;
  }

  /** Trend following acts on a cross: long exactly where the fast average was not above the slow one a
      bar ago and is now, short the other way round, once both averages have two values. */
  lemma CrossIff(hist: seq<Candle>, fast: nat, slow: nat)
    requires 0 < fast && 0 < slow && slow + 2 <= |hist|
    ensures var s, n, closes := TrendFollowingOn(hist, fast, slow), |hist| - 1, Closes(hist);
            var known := fast <= n && slow <= n;
            && (s.direction == LONG <==>
                  && known
                  && EmaValue(closes, fast, n - 1) <= EmaValue(closes, slow, n - 1)
                  && EmaValue(closes, slow, n) < EmaValue(closes, fast, n))
            && (s.direction == SHORT <==>
                  && known
                  && EmaValue(closes, slow, n - 1) <= EmaValue(closes, fast, n - 1)
                  && EmaValue(closes, fast, n) < EmaValue(closes, slow, n))
            && (s.direction == LONG ==> s.stop == Some(hist[n].close * 0.97) && s.target == Some(hist[n].close * 1.09))
            && (s.direction == SHORT ==> s.stop == Some(hist[n].close * 1.03) && s.target == Some(hist[n].close * 0.91))
  {
  }
}
