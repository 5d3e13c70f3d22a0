/** What the recursions behind the indicators come to, without their divisions: the share each value has
    in an average, and what strength and direction say. */
module IndicatorLaws {
  import opened Prelude
  import opened Windows
  import opened Indicators
  import opened Wilder

  // ----- averages -----

  /** A simple average weighs its values alike. */
  lemma SmaLaw(values: seq<real>, period: nat, i: nat)
    requires 0 < period <= i + 1 <= |values|
    ensures SmaAt(values, period, i).Some?
         && SmaAt(values, period, i).value * period as real == Sum(values[i + 1 - period..i + 1])
  {
  }

  /** An exponential average gives the new value two parts and the average before it all but one of
      `period`, and starts from the mean of the first values. */
  lemma EmaLaw(values: seq<real>, period: nat, i: nat)
    requires 0 < period && period - 1 <= i < |values|
    ensures i == period - 1 ==> EmaValue(values, period, i) * period as real == Sum(values[..period])
    ensures period <= i ==>
      EmaValue(values, period, i) * (period as real + 1.0)
      == values[i] * 2.0 + EmaValue(values, period, i - 1) * (period as real - 1.0)
  {
    if period <= i {
      Weighted(EmaValue(values, period, i - 1), values[i], period as real + 1.0);
    }
  }

  lemma Weighted(prev: real, x: real, n: real)
    requires n != 0.0
    ensures ((x - prev) * (2.0 / n) + prev) * n == x * 2.0 + prev * (n - 2.0)
  {
    var w := 2.0 / n;
    assert w * n == 2.0;
    assert ((x - prev) * w) * n == (x - prev) * (w * n);
  }

  /** The MACD line is above zero exactly when the fast average is above the slow one. */
  lemma LineSign(values: seq<real>, fast: nat, slow: nat, i: nat)
    requires 0 < fast && 0 < slow && LineStart(fast, slow) <= i < |values|
    ensures 0.0 < LineValue(values, fast, slow, i) <==> EmaValue(values, slow, i) < EmaValue(values, fast, i)
    ensures LineStart(fast, slow) == if fast < slow then slow - 1 else fast - 1
  {
  }

  // ----- ranges and movements -----

  /** The true range is the largest of the bar's own range and the distances of its ends from the close
      before it. */
  lemma TrueRangeIsLargest(bars: seq<Bar>, i: nat)
    requires 0 < i < |bars|
    ensures var r, b, before := TrueRange(bars, i), bars[i], bars[i - 1].close;
            var ranges := {b.high - b.low, Abs(b.high - before), Abs(b.low - before)};
            r in ranges && forall x :: x in ranges ==> x <= r
  {
  }

  /** A bar moves up by how far its high rises, if that is positive and more than its low falls, and down
      the other way round. */
  lemma MovesAre(bars: seq<Bar>, i: nat)
    requires 0 < i < |bars|
    ensures var rise, fall := bars[i].high - bars[i - 1].high, bars[i - 1].low - bars[i].low;
            && (PlusMove(bars, i) != 0.0 <==> 0.0 < rise && fall < rise)
            && (PlusMove(bars, i) != 0.0 ==> PlusMove(bars, i) == rise)
            && (MinusMove(bars, i) != 0.0 <==> 0.0 < fall && rise < fall)
            && (MinusMove(bars, i) != 0.0 ==> MinusMove(bars, i) == fall)
  {
  }

  /** Wilder's sum starts from the first terms after the first bar and then keeps all but one part of
      `period` of itself. */
  lemma SmoothedLaw(terms: seq<real>, period: nat, i: nat)
    requires 0 < period <= i < |terms|
    ensures i == period ==> Smoothed(terms, period, i) == Sum(terms[1..period + 1])
    ensures period < i ==>
      Smoothed(terms, period, i) * period as real
      == Smoothed(terms, period, i - 1) * (period as real - 1.0) + terms[i] * period as real
  {
    if period < i {
      var prev, n := Smoothed(terms, period, i - 1), period as real;
      assert (prev / n) * n == prev;
      assert (prev - prev / n + terms[i]) * n == prev * n - (prev / n) * n + terms[i] * n;
    }
  }

  /** A directional indicator is the share of smoothed movement in smoothed range, in percent. */
  lemma DiLaw(moves: seq<real>, ranges: seq<real>, period: nat, i: nat)
    requires 0 < period <= i < |moves| == |ranges| && Smoothed(ranges, period, i) != 0.0
    ensures Di(moves, ranges, period, i) * Smoothed(ranges, period, i) == 100.0 * Smoothed(moves, period, i)
  {
    Undivided(100.0 * Smoothed(moves, period, i), Smoothed(ranges, period, i));
  }

  lemma Undivided(x: real, n: real)
    requires n != 0.0
    ensures x / n * n == x
  {
  }

  /** The index of direction is the difference of the two in their sum, in percent. */
  lemma DxLaw(plus: real, minus: real)
    ensures plus + minus == 0.0 ==> DxOf(plus, minus) == 0.0
    ensures plus + minus != 0.0 ==>
      DxOf(plus, minus) * (plus + minus) == 100.0 * if plus < minus then minus - plus else plus - minus
  {
    if plus + minus != 0.0 {
      var share := Abs(plus - minus) / (plus + minus);
      assert share * (plus + minus) == Abs(plus - minus);
      assert share * 100.0 * (plus + minus) == 100.0 * (share * (plus + minus));
    }
  }

  // ----- relative strength -----

  /** A move is a gain or a loss, and what is left of it is nothing. */
  lemma MovesSplit(values: seq<real>, i: nat)
    requires 0 < i < |values|
    ensures var gain, loss := Gain(values, i), Loss(values, i);
            gain - loss == values[i] - values[i - 1] && 0.0 <= gain && 0.0 <= loss && (gain == 0.0 || loss == 0.0)
  {
  }

  /** The average keeps all but one part of `period` of itself. */
  lemma WilderLaw(prev: real, x: real, period: nat)
    requires 0 < period
    ensures WilderNext(prev, x, period) * period as real == prev * (period as real - 1.0) + x
  {
  }

  /** The index is the share of gains in all moves, in percent. */
  lemma StrengthIsShare(gain: real, loss: real)
    requires 0.0 <= gain && 0.0 <= loss && 0.0 < gain + loss
    ensures Strength(gain, loss) * (gain + loss) == 100.0 * gain
  {
    if 0.0 < loss {
      var ratio, n := gain / loss, gain + loss;
      assert ratio * loss == gain;
      assert (1.0 + ratio) * loss == n;
      var part := 100.0 / (1.0 + ratio);
      assert 0.0 < 1.0 + ratio by {
        QuotientAtLeast(gain, loss, 0.0);
      }
      assert part * (1.0 + ratio) == 100.0;
      assert part * n == part * (1.0 + ratio) * loss == 100.0 * loss;
    }
  }

  lemma StrengthAboveHalf(gain: real, loss: real)
    requires 0.0 <= gain && 0.0 <= loss
    ensures var r := Strength(gain, loss);
            && (loss == 0.0 ==> r == 100.0)
            && (0.0 < gain + loss ==> (50.0 < r <==> loss < gain) && (r < 50.0 <==> gain < loss))
  {
    if 0.0 < gain + loss {
      StrengthIsShare(gain, loss);
      AboveHalf(Strength(gain, loss), gain + loss, gain, loss);
    }
  }

  /** So it is above fifty exactly where gains outweigh losses, and a hundred where there were none. */
  lemma RsiAboveHalfIff(values: seq<real>, period: nat, i: nat)
    requires 0 < period <= i < |values|
    ensures var gain, loss := AverageMove(values, true, period, i), AverageMove(values, false, period, i);
            var rsi := RsiAt(values, period, i).value;
            && (loss == 0.0 ==> rsi == 100.0)
            && (0.0 < gain + loss ==> (50.0 < rsi <==> loss < gain) && (rsi < 50.0 <==> gain < loss))
  {
    AverageMoveNonNegative(values, true, period, i);
    AverageMoveNonNegative(values, false, period, i);
    StrengthAboveHalf(AverageMove(values, true, period, i), AverageMove(values, false, period, i));
  }

  lemma AboveHalf(r: real, n: real, gain: real, loss: real)
    requires 0.0 < n == gain + loss && r * n == 100.0 * gain
    ensures 50.0 < r <==> loss < gain
    ensures r < 50.0 <==> gain < loss
  {
    assert 50.0 * n == 50.0 * gain + 50.0 * loss;
    if 50.0 < r {
      ScaleLess(50.0, r, n);
    } else if r < 50.0 {
      ScaleLess(r, 50.0, n);
    }
  }

  // ----- volume-weighted price -----

  /** Three times the traded value is the sum of high, low and close, each times the volume. */
  lemma {:induction false} TradedLaw(bars: seq<Bar>, volumes: seq<real>, n: nat)
    requires 0 < n <= |bars| == |volumes|
    ensures var b, v := bars[n - 1], volumes[n - 1];
            3.0 * (Traded(bars, volumes, n) - Traded(bars, volumes, n - 1)) == b.high * v + b.low * v + b.close * v
    ensures Volume(volumes, n) - Volume(volumes, n - 1) == volumes[n - 1]
  {
    var b, v := bars[n - 1], volumes[n - 1];
    assert (b.high + b.low + b.close) * v == b.high * v + b.low * v + b.close * v;
    assert 3.0 * ((b.high + b.low + b.close) / 3.0 * v) == (b.high + b.low + b.close) * v;
  }

  /** The price is what was traded spread over the volume. */
  lemma VwapLaw(bars: seq<Bar>, volumes: seq<real>, i: nat)
    requires i < |bars| == |volumes| && Volume(volumes, i + 1) != 0.0
    ensures VwapAt(bars, volumes, i).Some?
         && VwapAt(bars, volumes, i).value * Volume(volumes, i + 1) == Traded(bars, volumes, i + 1)
  {
  }

  // ----- seeds -----

  /** Averages of moves and the index of trend start from plain means. */
  lemma SeedLaws(values: seq<real>, bars: seq<Bar>, gains: bool, period: nat)
    requires 0 < period < |values| && 2 * period <= |bars|
    ensures AverageMove(values, gains, period, period) * period as real == Sum(Moves(values, gains, period))
    ensures AdxValue(bars, period, 2 * period - 1) * period as real == Sum(Dxs(bars, period, 2 * period))
  {
    Undivided(Sum(Moves(values, gains, period)), period as real);
    Undivided(Sum(Dxs(bars, period, 2 * period)), period as real);
  }
}
