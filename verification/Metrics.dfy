/** One-pass performance measures against what they measure: the worst decline between any two
    points, the longest streaks, the longest stretch under water. */
module Metrics {
  import opened Prelude
  import opened Windows

  // ----- maximum drawdown -----

  /** The decline from one equity to another, as a share of the first. */
  function Decline(from: real, to: real): real { if from != 0.0 then (from - to) / from else 0.0 }

  /** The worst decline from any point to any later one, and it is reached. */
  ghost predicate IsWorstDecline(equity: seq<real>, worst: real) {
    (forall i, j :: 0 <= i <= j < |equity| ==> Decline(equity[i], equity[j]) <= worst)
    && exists i, j :: 0 <= i <= j < |equity| && Decline(equity[i], equity[j]) == worst
  }

  predicate NeverNegative(equity: seq<real>) {
    forall i :: 0 <= i < |equity| ==> 0.0 <= equity[i]
  }

  ghost predicate IsPeak(equity: seq<real>, peak: real) {
    peak in equity && forall i :: 0 <= i < |equity| ==> equity[i] <= peak
  }

  lemma DeclineAsShare(from: real, to: real)
    requires from != 0.0
    ensures Decline(from, to) == 1.0 - to / from
  {
    var q, d := to / from, (from - to) / from;
    assert q * from == to && d * from == from - to;
    SameFactor(d + q, 1.0, from);
  }

  lemma SameFactor(x: real, y: real, n: real)
    requires n != 0.0 && x * n == y * n
    ensures x == y
  {
    assert (x - y) * n == 0.0;
  }

  lemma DeclineFromPeak(low: real, peak: real, to: real)
    requires 0.0 <= low <= peak && 0.0 <= to <= peak
    ensures Decline(low, to) <= Decline(peak, to) && 0.0 <= Decline(peak, to)
  {
    if low > 0.0 {
      DeclineAsShare(low, to);
      DeclineAsShare(peak, to);
      Shares(to, low, peak);
    } else if peak > 0.0 {
      QuotientAtLeast(peak - to, peak, 0.0);
    }
  }

  lemma Shares(x: real, low: real, high: real)
    requires 0.0 <= x <= high && 0.0 < low <= high
    ensures x / high <= x / low && x / high <= 1.0
  {
    QuotientAtMost(x, high, 1.0);
    ScaleLeq(low, high, x / high);
    QuotientAtLeast(x, low, x / high);
  }

  lemma OneMorePoint(equity: seq<real>, peak: real, worst: real, e: real)
    requires IsPeak(equity, peak) && IsWorstDecline(equity, worst) && 0.0 <= e
    requires NeverNegative(equity)
    ensures IsPeak(equity + [e], Max(peak, e))
    ensures IsWorstDecline(equity + [e], Max(worst, Decline(Max(peak, e), e)))
  {
    var all, top := equity + [e], Max(peak, e);
    var next := Max(worst, Decline(top, e));
    assert all[|equity|] == e;
    forall i, j | 0 <= i <= j < |all|
      ensures Decline(all[i], all[j]) <= next
    {
      if j < |equity| {
        assert Decline(equity[i], equity[j]) <= worst;
      } else {
        DeclineFromPeak(all[i], top, e);
      }
    }
    assert top in all by {
      if peak < e {
        assert top == all[|equity|];
      } else {
        var i :| 0 <= i < |equity| && equity[i] == peak;
        assert all[i] == top;
      }
    }
    if worst < Decline(top, e) {
      var i :| 0 <= i < |all| && all[i] == top;
      assert Decline(all[i], all[|equity|]) == next;
    } else {
      var i, j :| 0 <= i <= j < |equity| && Decline(equity[i], equity[j]) == worst;
      assert Decline(all[i], all[j]) == next;
    }
  }

  /** Equity after each trade, the start first. */
  function Curve(start: real, pnls: seq<real>): (s: seq<real>)
    ensures |s| == |pnls| + 1
  {
    if pnls == [] then [start]
    else
      var before := Curve(start, pnls[..|pnls| - 1]);
      before + [before[|pnls| - 1] + pnls[|pnls| - 1]]
  }

  lemma {:induction false} CurveAccumulates(start: real, pnls: seq<real>)
    ensures Curve(start, pnls)[|pnls|] == start + Sum(pnls)
  {
    if pnls != [] {
      CurveAccumulates(start, pnls[..|pnls| - 1]);
    }
  }

  /** The peak and the worst decline a single pass has after the first `n` points. */
  function Pass(curve: seq<real>, n: nat): (real, real)
    requires 0 < n <= |curve|
  {
    if n == 1 then (curve[0], 0.0)
    else
      var (peak, worst) := Pass(curve, n - 1);
      var top := Max(peak, curve[n - 1]);
      (top, Max(worst, Decline(top, curve[n - 1])))
  }

  /** One pass with a running peak finds the worst decline between any two points, as long as
      equity never goes negative. */
  method MaxDrawdown(start: real, pnls: seq<real>) returns (equity: real, worst: real)
    requires NeverNegative(Curve(start, pnls))
    ensures equity == start + Sum(pnls)
    ensures IsWorstDecline(Curve(start, pnls), worst)
  {
    equity, worst := start, 0.0;
    var peak := start;
    ghost var curve := Curve(start, pnls);
    CurveSteps(start, pnls);
    for k := 0 to |pnls|
      invariant equity == curve[k] && (peak, worst) == Pass(curve, k + 1)
    {
      equity := equity + pnls[k];
      peak := Max(peak, equity);
      worst := Max(worst, Decline(peak, equity));
    }
    assert curve[..|curve|] == curve;
    PassFindsWorst(curve, |curve|);
    CurveAccumulates(start, pnls);
  }

  lemma {:induction false} PassFindsWorst(curve: seq<real>, n: nat)
    requires 0 < n <= |curve| && NeverNegative(curve[..n])
    ensures var (peak, worst) := Pass(curve, n);
            IsPeak(curve[..n], peak) && IsWorstDecline(curve[..n], worst)
  {
    if n == 1 {
      StartIsWorst(curve[0]);
      assert curve[..1] == [curve[0]];
    } else {
      ShorterNeverNegative(curve, n);
      PassFindsWorst(curve, n - 1);
      NextPoint(curve, n, Pass(curve, n - 1), Pass(curve, n));
    }
  }

  lemma ShorterNeverNegative(curve: seq<real>, n: nat)
    requires 0 < n <= |curve| && NeverNegative(curve[..n])
    ensures NeverNegative(curve[..n - 1]) && 0.0 <= curve[n - 1]
  {
    assert forall i :: 0 <= i < n ==> curve[..n][i] == curve[i];
  }

  lemma NextPoint(curve: seq<real>, n: nat, before: (real, real), after: (real, real))
    requires 0 < n <= |curve| && NeverNegative(curve[..n - 1]) && 0.0 <= curve[n - 1]
    requires IsPeak(curve[..n - 1], before.0) && IsWorstDecline(curve[..n - 1], before.1)
    requires after.0 == Max(before.0, curve[n - 1]) && after.1 == Max(before.1, Decline(after.0, curve[n - 1]))
    ensures IsPeak(curve[..n], after.0) && IsWorstDecline(curve[..n], after.1)
  {
    OneMorePoint(curve[..n - 1], before.0, before.1, curve[n - 1]);
    assert curve[..n] == curve[..n - 1] + [curve[n - 1]];
  }

  lemma StartIsWorst(start: real)
    ensures IsPeak([start], start) && IsWorstDecline([start], 0.0)
  {
    assert Decline([start][0], [start][0]) == 0.0;
  }

  lemma {:induction false} CurveSteps(start: real, pnls: seq<real>)
    ensures Curve(start, pnls)[0] == start
    ensures forall k :: 0 <= k < |pnls| ==> Curve(start, pnls)[k + 1] == Curve(start, pnls)[k] + pnls[k]
  {
    if pnls != [] {
      CurveSteps(start, pnls[..|pnls| - 1]);
    }
  }

  lemma NegativeQuotient(x: real, n: real)
    requires x < 0.0 < n
    ensures x / n < 0.0 && x / n * n == x
  {
    if x / n >= 0.0 {
      NonNegativeProduct(x / n, n);
    }
  }

  /** A fall below zero is the steeper the lower it starts, and more than the whole. */
  lemma SteeperFromBelow(low: real, high: real, e: real)
    requires 0.0 < low < high && e < 0.0
    ensures 1.0 < Decline(high, e) < Decline(low, e)
  {
    DeclineAsShare(low, e);
    DeclineAsShare(high, e);
    NegativeQuotient(e, low);
    NegativeQuotient(e, high);
    ScaleLess(low, high, -(e / high));
    if e / low >= e / high {
      ScaleLeq(e / high, e / low, low);
    }
  }

  lemma MissedFromBelow(equity: seq<real>, peak: real, worst: real, e: real, i: nat)
    requires IsPeak(equity, peak) && worst <= 1.0 && e < 0.0
    requires i < |equity| && 0.0 < equity[i] < peak
    ensures !IsWorstDecline(equity + [e], Max(worst, Decline(peak, e)))
  {
    SteeperFromBelow(equity[i], peak, e);
    var all := equity + [e];
    assert all[i] == equity[i] && all[|equity|] == e;
    assert Decline(all[i], all[|equity|]) > Max(worst, Decline(peak, e));
  }

  /** The first point below zero: at it the pass is right exactly when every point before it is
      zero or the peak. A lower start before the peak makes a worse decline, which the pass, looking
      only from the peak, does not see. */
  lemma NegativePointIff(curve: seq<real>, n: nat)
    requires 0 < n < |curve| && NeverNegative(curve[..n]) && curve[n] < 0.0
    ensures IsWorstDecline(curve[..n + 1], Pass(curve, n + 1).1)
       <==> forall i :: 0 <= i < n ==> curve[i] == 0.0 || curve[i] == Pass(curve, n).0
  {
    var (peak, worst) := Pass(curve, n);
    PassFindsWorst(curve, n);
    assert curve[..n + 1] == curve[..n] + [curve[n]];
    assert forall i :: 0 <= i < n ==> curve[..n][i] == curve[i];
    NegativeAppendedIff(curve[..n], peak, worst, curve[n]);
  }

  lemma NegativeAppendedIff(equity: seq<real>, peak: real, worst: real, e: real)
    requires IsPeak(equity, peak) && IsWorstDecline(equity, worst)
    requires e < 0.0 && NeverNegative(equity)
    ensures IsWorstDecline(equity + [e], Max(worst, Decline(Max(peak, e), e)))
       <==> forall i :: 0 <= i < |equity| ==> equity[i] == 0.0 || equity[i] == peak
  {
    WorstBelowOne(equity, worst);
    assert 0.0 <= peak;
    if forall i :: 0 <= i < |equity| ==> equity[i] == 0.0 || equity[i] == peak {
      OnlyFromPeak(equity, peak, worst, e);
    } else {
      var i :| 0 <= i < |equity| && equity[i] != 0.0 && equity[i] != peak;
      MissedFromBelow(equity, peak, worst, e, i);
    }
  }

  /** Between points that are not negative no decline exceeds the whole. */
  lemma WorstBelowOne(equity: seq<real>, worst: real)
    requires IsWorstDecline(equity, worst) && NeverNegative(equity)
    ensures 0.0 <= worst <= 1.0
  {
    var i, j :| 0 <= i <= j < |equity| && Decline(equity[i], equity[j]) == worst;
    if equity[i] != 0.0 {
      DeclineAsShare(equity[i], equity[j]);
      QuotientAtLeast(equity[j], equity[i], 0.0);
    }
    assert Decline(equity[0], equity[0]) == 0.0;
  }

  lemma OnlyFromPeak(equity: seq<real>, peak: real, worst: real, e: real)
    requires IsPeak(equity, peak) && IsWorstDecline(equity, worst) && e < 0.0
    requires forall i :: 0 <= i < |equity| ==> equity[i] == 0.0 || equity[i] == peak
    requires 0.0 <= peak && 0.0 <= worst
    ensures IsWorstDecline(equity + [e], Max(worst, Decline(peak, e)))
  {
    var all, next := equity + [e], Max(worst, Decline(peak, e));
    forall i, j | 0 <= i <= j < |all|
      ensures Decline(all[i], all[j]) <= next
    {
      if j < |equity| {
        assert Decline(equity[i], equity[j]) <= worst;
      } else if i == |equity| {
        assert Decline(all[i], all[j]) == 0.0;
      }
    }
    if worst < Decline(peak, e) {
      var p :| 0 <= p < |equity| && equity[p] == peak;
      assert Decline(all[p], all[|equity|]) == next;
    } else {
      var i, j :| 0 <= i <= j < |equity| && Decline(equity[i], equity[j]) == worst;
      assert Decline(all[i], all[j]) == next;
    }
  }

  /** For one: from 10 up to 100 and down to -50 the pass reports 1.5, but the fall from 10 is
      worse. */
  lemma NegativeEquityIsMissed()
    ensures var curve := Curve(10.0, [90.0, -150.0]);
            curve == [10.0, 100.0, -50.0] && Decline(curve[1], curve[2]) == 1.5 < Decline(curve[0], curve[2])
  {
    assert [90.0, -150.0][..1] == [90.0] && [90.0][..0] == [];
    assert Curve(10.0, [90.0]) == [10.0, 100.0];
  }

  // ----- longest runs -----

  /** All flags of a stretch are set. */
  ghost predicate Run(flags: seq<bool>, start: int, length: int) {
    0 <= start && 0 <= length && start + length <= |flags| && forall i :: start <= i < start + length ==> flags[i]
  }

  ghost predicate IsLongestRun(flags: seq<bool>, n: nat) {
    (exists start :: Run(flags, start, n)) && forall start, length :: Run(flags, start, length) ==> length <= n
  }

  /** The run that reaches the end. */
  function Trailing(flags: seq<bool>): nat {
    if flags == [] || !flags[|flags| - 1] then 0 else Trailing(flags[..|flags| - 1]) + 1
  }

  lemma {:induction false} TrailingIsRun(flags: seq<bool>)
    ensures Trailing(flags) <= |flags| && Run(flags, |flags| - Trailing(flags), Trailing(flags))
    ensures forall start, length :: Run(flags, start, length) && start + length == |flags| ==> length <= Trailing(flags)
  {
    if flags != [] && flags[|flags| - 1] {
      var init := flags[..|flags| - 1];
      TrailingIsRun(init);
      forall start, length | Run(flags, start, length) && start + length == |flags|
        ensures length <= Trailing(flags)
      {
        if length > 0 {
          assert Run(init, start, length - 1);
        }
      }
    }
  }

  lemma LongestGrows(flags: seq<bool>, n: nat, flag: bool)
    requires IsLongestRun(flags, n)
    ensures IsLongestRun(flags + [flag], if Trailing(flags + [flag]) > n then Trailing(flags + [flag]) else n)
    ensures Trailing(flags + [flag]) == if flag then Trailing(flags) + 1 else 0
  {
    var all := flags + [flag];
    assert all[..|flags|] == flags;
    TrailingIsRun(all);
    var start :| Run(flags, start, n);
    assert Run(all, start, n);
    forall s, length | Run(all, s, length)
      ensures length <= if Trailing(all) > n then Trailing(all) else n
    {
      if s + length <= |flags| {
        assert Run(flags, s, length);
      }
    }
  }

  lemma NoRunYet()
    ensures IsLongestRun([], 0) && Trailing([]) == 0
  {
    assert Run([], 0, 0);
  }

  // ----- streaks -----

  function Wins(pnls: seq<real>): (flags: seq<bool>)
    ensures |flags| == |pnls| && forall i :: 0 <= i < |flags| ==> flags[i] == (pnls[i] > 0.0)
  {
    seq(|pnls|, i requires 0 <= i < |pnls| => pnls[i] > 0.0)
  }

  function Losses(pnls: seq<real>): (flags: seq<bool>)
    ensures |flags| == |pnls| && forall i :: 0 <= i < |flags| ==> flags[i] == (pnls[i] < 0.0)
  {
    seq(|pnls|, i requires 0 <= i < |pnls| => pnls[i] < 0.0)
  }

  /** The longest runs of winning and of losing trades. */
  method Streaks(pnls: seq<real>) returns (maxWin: nat, maxLoss: nat)
    ensures IsLongestRun(Wins(pnls), maxWin) && IsLongestRun(Losses(pnls), maxLoss)
  {
    maxWin, maxLoss := 0, 0;
    var wins, losses := 0, 0;
    NoRunYet();
    for i := 0 to |pnls|
      invariant wins == Trailing(Wins(pnls)[..i]) && losses == Trailing(Losses(pnls)[..i])
      invariant IsLongestRun(Wins(pnls)[..i], maxWin) && IsLongestRun(Losses(pnls)[..i], maxLoss)
    {
      OneMoreFlag(Wins(pnls), i, maxWin);
      OneMoreFlag(Losses(pnls), i, maxLoss);
      if pnls[i] > 0.0 {
        wins, losses := wins + 1, 0;
        maxWin := if wins > maxWin then wins else maxWin;
      } else if pnls[i] < 0.0 {
        losses, wins := losses + 1, 0;
        maxLoss := if losses > maxLoss then losses else maxLoss;
      } else {
        wins, losses := 0, 0;
      }
    }
    assert Wins(pnls)[..|pnls|] == Wins(pnls) && Losses(pnls)[..|pnls|] == Losses(pnls);
  }

  lemma OneMoreFlag(flags: seq<bool>, i: nat, n: nat)
    requires i < |flags| && IsLongestRun(flags[..i], n)
    ensures Trailing(flags[..i + 1]) == if flags[i] then Trailing(flags[..i]) + 1 else 0
    ensures IsLongestRun(flags[..i + 1], if Trailing(flags[..i + 1]) > n then Trailing(flags[..i + 1]) else n)
  {
    assert flags[..i + 1] == flags[..i] + [flags[i]];
    LongestGrows(flags[..i], n, flags[i]);
  }

  // ----- drawdown duration -----

  /** The highest of the initial capital and the points so far. */
  function PeakOf(initial: real, equity: seq<real>): real {
    if equity == [] then initial else Max(PeakOf(initial, equity[..|equity| - 1]), equity[|equity| - 1])
  }

  /** Which points lie below every high before them. */
  function UnderWater(initial: real, equity: seq<real>): (flags: seq<bool>)
    ensures |flags| == |equity|
    ensures forall i :: 0 <= i < |flags| ==> flags[i] == (equity[i] < PeakOf(initial, equity[..i]))
  {
    seq(|equity|, i requires 0 <= i < |equity| => equity[i] < PeakOf(initial, equity[..i]))
  }

  /** The pass that opens a stretch at the first point below the peak and closes it at the next
      high finds the longest stretch under water, the one still open at the end included. */
  method DrawdownDuration(initial: real, equity: seq<real>) returns (longest: nat)
    ensures IsLongestRun(UnderWater(initial, equity), longest)
  {
    var peak, start, inDrawdown := initial, 0, false;
    longest := 0;
    ghost var flags, best := UnderWater(initial, equity), 0;
    NoRunYet();
    for i := 0 to |equity|
      invariant peak == PeakOf(initial, equity[..i])
      invariant if inDrawdown then start < i && Trailing(flags[..i]) == i - start else Trailing(flags[..i]) == 0
      invariant best == (if inDrawdown && i - start > longest then i - start else longest)
      invariant IsLongestRun(flags[..i], best)
    {
      OneMoreFlag(flags, i, best);
      best := if Trailing(flags[..i + 1]) > best then Trailing(flags[..i + 1]) else best;
      assert equity[..i + 1][..i] == equity[..i];
      if equity[i] >= peak {
        peak := equity[i];
        if inDrawdown {
          longest := if i - start > longest then i - start else longest;
          inDrawdown := false;
        }
      } else if !inDrawdown {
        start, inDrawdown := i, true;
      }
    }
    assert flags[..|equity|] == flags;
    if inDrawdown {
      longest := if |equity| - start > longest then |equity| - start else longest;
    }
  }
}
