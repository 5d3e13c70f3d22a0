/** No indicator looks ahead: computed on the first `k` bars, each gives the first `k` values
    of what it gives on the whole series. */
module Prefixes {
  import opened Indicators
  import opened Wilder

  lemma {:induction false} SmoothedPrefix(terms: seq<real>, period: nat, k: nat, i: nat)
    requires 0 < period <= i < k <= |terms|
    ensures Smoothed(terms[..k], period, i) == Smoothed(terms, period, i)
  {
    if i == period {
      assert terms[..k][1..period + 1] == terms[1..period + 1];
    } else {
      SmoothedPrefix(terms, period, k, i - 1);
    }
  }

  lemma RangesPrefix(bars: seq<Bar>, k: nat)
    requires k <= |bars|
    ensures TrueRanges(bars[..k]) == TrueRanges(bars)[..k]
    ensures PlusMoves(bars[..k]) == PlusMoves(bars)[..k]
    ensures MinusMoves(bars[..k]) == MinusMoves(bars)[..k]
  {
  }

  lemma AtrPrefix(bars: seq<Bar>, period: nat, k: nat, i: nat)
    requires 0 < period && i < k <= |bars|
    ensures SmaAt(TrueRanges(bars[..k]), period, i) == SmaAt(TrueRanges(bars), period, i)
  {
    RangesPrefix(bars, k);
    SmaPrefix(TrueRanges(bars), period, k, i);
  }

  lemma DxPrefix(bars: seq<Bar>, period: nat, k: nat, i: nat)
    requires 0 < period <= i < k <= |bars|
    ensures PlusDi(bars[..k], period, i) == PlusDi(bars, period, i)
    ensures MinusDi(bars[..k], period, i) == MinusDi(bars, period, i)
    ensures Dx(bars[..k], period, i) == Dx(bars, period, i)
  {
    RangesPrefix(bars, k);
    SmoothedPrefix(TrueRanges(bars), period, k, i);
    SmoothedPrefix(PlusMoves(bars), period, k, i);
    SmoothedPrefix(MinusMoves(bars), period, k, i);
  }

  lemma {:induction false} AdxPrefix(bars: seq<Bar>, period: nat, k: nat, i: nat)
    requires 0 < period && 2 * period - 1 <= i < k <= |bars|
    ensures AdxValue(bars[..k], period, i) == AdxValue(bars, period, i)
  {
    if i == 2 * period - 1 {
      forall j | period <= j <= i
        ensures Dx(bars[..k], period, j) == Dx(bars, period, j)
      {
        DxPrefix(bars, period, k, j);
      }
      assert Dxs(bars[..k], period, i + 1) == Dxs(bars, period, i + 1);
    } else {
      AdxPrefix(bars, period, k, i - 1);
      DxPrefix(bars, period, k, i);
    }
  }

  lemma {:induction false} AverageMovePrefix(values: seq<real>, gains: bool, period: nat, k: nat, i: nat)
    requires 0 < period <= i < k <= |values|
    ensures AverageMove(values[..k], gains, period, i) == AverageMove(values, gains, period, i)
  {
    if i == period {
      assert Moves(values[..k], gains, period) == Moves(values, gains, period);
    } else {
      AverageMovePrefix(values, gains, period, k, i - 1);
    }
  }

  lemma RsiPrefix(values: seq<real>, period: nat, k: nat, i: nat)
    requires 0 < period && i < k <= |values|
    ensures RsiAt(values[..k], period, i) == RsiAt(values, period, i)
  {
    if period <= i {
      AverageMovePrefix(values, true, period, k, i);
      AverageMovePrefix(values, false, period, k, i);
    }
  }

  lemma {:induction false} TradedPrefix(bars: seq<Bar>, volumes: seq<real>, k: nat, n: nat)
    requires n <= k <= |bars| == |volumes|
    ensures Traded(bars[..k], volumes[..k], n) == Traded(bars, volumes, n)
    ensures Volume(volumes[..k], n) == Volume(volumes, n)
  {
    if n > 0 {
      TradedPrefix(bars, volumes, k, n - 1);
    }
  }

  lemma VwapPrefix(bars: seq<Bar>, volumes: seq<real>, k: nat, i: nat)
    requires i < k <= |bars| == |volumes|
    ensures VwapAt(bars[..k], volumes[..k], i) == VwapAt(bars, volumes, i)
  {
    TradedPrefix(bars, volumes, k, i + 1);
  }

  lemma CompactPrefix(values: seq<real>, fast: nat, slow: nat, k: nat)
    requires 0 < fast && 0 < slow && LineStart(fast, slow) <= k <= |values|
    ensures Compact(values[..k], fast, slow) == Compact(values, fast, slow)[..k - LineStart(fast, slow)]
  {
    var start := LineStart(fast, slow);
    forall j | start <= j < k
      ensures LineValue(values[..k], fast, slow, j) == LineValue(values, fast, slow, j)
    {
      LinePrefix(values, fast, slow, k, j);
    }
  }

  lemma LinePrefix(values: seq<real>, fast: nat, slow: nat, k: nat, i: nat)
    requires 0 < fast && 0 < slow && LineStart(fast, slow) <= i < k <= |values|
    ensures LineValue(values[..k], fast, slow, i) == LineValue(values, fast, slow, i)
  {
    EmaPrefix(values, fast, k, i);
    EmaPrefix(values, slow, k, i);
  }

  /** The compacted line of a prefix is a prefix of the compacted line, so neither the line nor
      its realigned signal changes when bars are added. */
  lemma MacdPrefix(values: seq<real>, fast: nat, slow: nat, signal: nat, k: nat, i: nat)
    requires 0 < fast && 0 < slow && 0 < signal && LineStart(fast, slow) <= i < k <= |values|
    ensures LineValue(values[..k], fast, slow, i) == LineValue(values, fast, slow, i)
    ensures EmaAt(Compact(values[..k], fast, slow), signal, i - LineStart(fast, slow))
         == EmaAt(Compact(values, fast, slow), signal, i - LineStart(fast, slow))
  {
    var start := LineStart(fast, slow);
    LinePrefix(values, fast, slow, k, i);
    CompactPrefix(values, fast, slow, k);
    if signal - 1 <= i - start {
      EmaPrefix(Compact(values, fast, slow), signal, k - start, i - start);
    }
  }
}
