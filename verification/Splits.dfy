/** Walk-forward windows over a candle series, by bar counts or by calendar days. */
module Splits {
  import opened Prelude
  import opened Candles

  /** Timestamps here count microseconds, as the window boundaries do. */
  const DAY := 86400000000

  datatype Split = Split(start: int, end: int, candles: seq<Candle>)

  datatype Window = Window(train: Split, validation: Split, test: Split)

  // ----- bar windows -----

  datatype Bars = Bars(training: nat, validation: nat, test: nat, step: nat)
  {
    predicate Valid() { 0 < training && 0 < validation && 0 < test && 0 < step }

    function Total(): nat { training + validation + test }
  }

  function SplitAt(candles: seq<Candle>, low: nat, high: nat): Split
    requires low < high <= |candles|
  {
    Split(candles[low].timestamp, candles[high - 1].timestamp, candles[low..high])
  }

  /** Training, validation and test bars side by side from position `at`. */
  function WindowAt(candles: seq<Candle>, b: Bars, at: nat): Window
    requires b.Valid() && at + b.Total() <= |candles|
  {
    var t1 := at + b.training;
    var v1 := t1 + b.validation;
    Window(SplitAt(candles, at, t1), SplitAt(candles, t1, v1), SplitAt(candles, v1, v1 + b.test))
  }

  function WindowCount(n: nat, b: Bars): nat
    requires b.Valid()
  {
    if b.Total() <= n then (n - b.Total()) / b.step + 1 else 0
  }

  lemma CountFits(n: nat, b: Bars, k: nat)
    requires b.Valid()
    ensures k < WindowCount(n, b) <==> k * b.step + b.Total() <= n
  {
    if b.Total() <= n {
      var d := n - b.Total();
      assert d == d / b.step * b.step + d % b.step;
      if k <= d / b.step {
        Monotone(k, d / b.step, b.step);
      } else {
        Monotone(d / b.step + 1, k, b.step);
      }
    }
  }

  lemma Monotone(x: int, y: int, n: nat)
    requires x <= y
    ensures x * n <= y * n
  {
  }

  lemma Next(n: nat, stride: nat)
    ensures (n + 1) * stride == n * stride + stride
  {
  }

  ghost predicate IsBarWindow(w: Window, candles: seq<Candle>, b: Bars, k: nat)
    requires b.Valid()
  {
    k * b.step + b.Total() <= |candles| && w == WindowAt(candles, b, k * b.step)
  }

  /** As many windows as fit, each one step after the last. */
  method BarWindows(candles: seq<Candle>, b: Bars) returns (windows: seq<Window>)
    requires b.Valid()
    ensures |windows| == WindowCount(|candles|, b)
    ensures forall k :: 0 <= k < |windows| ==> IsBarWindow(windows[k], candles, b, k)
  {
    windows := [];
    var i := 0;
    while i + b.training + b.validation + b.test <= |candles|
      invariant i == |windows| * b.step && |windows| <= WindowCount(|candles|, b)
      invariant forall k :: 0 <= k < |windows| ==> IsBarWindow(windows[k], candles, b, k)
      decreases |candles| - i
    {
      CountFits(|candles|, b, |windows|);
      Next(|windows|, b.step);
      windows := windows + [WindowAt(candles, b, i)];
      i := i + b.step;
    }
    CountFits(|candles|, b, |windows|);
  }

  // ----- calendar windows -----

  function FilterRange(candles: seq<Candle>, start: int, end: int): (r: seq<Candle>)
    ensures forall c :: c in r <==> c in candles && start <= c.timestamp <= end
  {
    if candles == [] then []
    else
      var rest, last := FilterRange(candles[..|candles| - 1], start, end), candles[|candles| - 1];
      assert forall c :: c in candles <==> c in candles[..|candles| - 1] || c == last;
      if start <= last.timestamp <= end then rest + [last] else rest
  }

  datatype Days = Days(training: nat, validation: nat, test: nat, step: nat)

  function CalendarWindow(candles: seq<Candle>, d: Days, cursor: int): Window {
    var trainEnd := cursor + d.training * DAY;
    var validationEnd := trainEnd + d.validation * DAY;
    var testEnd := validationEnd + d.test * DAY;
    Window(Split(cursor, trainEnd, FilterRange(candles, cursor, trainEnd)),
           Split(trainEnd, validationEnd, FilterRange(candles, trainEnd + 1, validationEnd)),
           Split(validationEnd, testEnd, FilterRange(candles, validationEnd + 1, testEnd)))
  }

  predicate Full(w: Window) { w.train.candles != [] && w.validation.candles != [] && w.test.candles != [] }

  ghost predicate Before(xs: seq<Candle>, ys: seq<Candle>) {
    forall x, y :: x in xs && y in ys ==> x.timestamp < y.timestamp
  }

  /** No part is empty, all is taken from the series, and each part ends before the next begins. */
  ghost predicate WellFormed(w: Window, candles: seq<Candle>) {
    && Full(w)
    && (forall c :: c in w.train.candles || c in w.validation.candles || c in w.test.candles ==> c in candles)
    && Before(w.train.candles, w.validation.candles)
    && Before(w.validation.candles, w.test.candles)
  }

  /** Which candles a calendar window has: those of its training days, both ends included, then those
      after them to the end of the validation days, then those after them to the end of the test days.
      No candle from its start to its end is left out. */
  lemma WindowCovers(candles: seq<Candle>, d: Days, cursor: int, c: Candle)
    requires c in candles
    ensures var w, at := CalendarWindow(candles, d, cursor), c.timestamp - cursor;
            var trained := d.training * DAY;
            var validated := trained + d.validation * DAY;
            && (c in w.train.candles <==> 0 <= at <= trained)
            && (c in w.validation.candles <==> trained < at <= validated)
            && (c in w.test.candles <==> validated < at <= validated + d.test * DAY)
            && w.train.start == cursor && w.test.end == cursor + validated + d.test * DAY
  {
  }

  lemma FullIsWellFormed(candles: seq<Candle>, d: Days, cursor: int)
    requires Full(CalendarWindow(candles, d, cursor))
    ensures WellFormed(CalendarWindow(candles, d, cursor), candles)
  {
  }

  function Cursor(candles: seq<Candle>, d: Days, k: nat): int
    requires candles != []
  {
    candles[0].timestamp + k * (d.step * DAY)
  }

  /** The test period of window `k` ends within the series. */
  predicate Fits(candles: seq<Candle>, d: Days, k: nat)
    requires candles != []
  {
    CalendarWindow(candles, d, Cursor(candles, d, k)).test.end <= candles[|candles| - 1].timestamp
  }

  /** The windows with candles in all parts among the first `n`. */
  function Calendar(candles: seq<Candle>, d: Days, n: nat): seq<Window>
    requires candles != []
  {
    if n == 0 then []
    else
      var w := CalendarWindow(candles, d, Cursor(candles, d, n - 1));
      Calendar(candles, d, n - 1) + if Full(w) then [w] else []
  }

  lemma {:induction false} CalendarIsWellFormed(candles: seq<Candle>, d: Days, n: nat)
    requires candles != []
    ensures forall w :: w in Calendar(candles, d, n) ==> WellFormed(w, candles)
  {
    if n > 0 {
      CalendarIsWellFormed(candles, d, n - 1);
      if Full(CalendarWindow(candles, d, Cursor(candles, d, n - 1))) {
        FullIsWellFormed(candles, d, Cursor(candles, d, n - 1));
      }
    }
  }

  lemma LaterFitsLess(candles: seq<Candle>, d: Days, j: nat, k: nat)
    requires candles != [] && j <= k && Fits(candles, d, k)
    ensures Fits(candles, d, j)
  {
    Monotone(j, k, d.step * DAY);
  }

  /** The windows that fit are exactly the first `n`. */
  ghost predicate FitExactly(candles: seq<Candle>, d: Days, n: nat)
    requires candles != []
  {
    forall k: nat :: k < n <==> Fits(candles, d, k)
  }

  /** The walk over the calendar comes to an end: it moves on, or has nowhere to begin. */
  predicate Ends(candles: seq<Candle>, d: Days)
    requires candles != []
  {
    0 < d.step || !Fits(candles, d, 0)
  }

  lemma CountFrom(candles: seq<Candle>, d: Days, k: nat) returns (n: nat)
    requires candles != [] && Ends(candles, d) && forall j: nat :: j < k ==> Fits(candles, d, j)
    ensures FitExactly(candles, d, n)
    decreases candles[|candles| - 1].timestamp - Cursor(candles, d, k)
  {
    if Fits(candles, d, k) {
      LaterFitsLess(candles, d, 0, k);
      Next(k, d.step * DAY);
      n := CountFrom(candles, d, k + 1);
    } else {
      n := k;
      forall j: nat | Fits(candles, d, j)
        ensures j < n
      {
        if j >= k {
          LaterFitsLess(candles, d, k, j);
        }
      }
    }
  }

  /** Exactly then only so many windows fit. With a step of zero every window is the first again,
      and if that fits there is no end to them. */
  lemma EndsIff(candles: seq<Candle>, d: Days)
    requires candles != []
    ensures Ends(candles, d) <==> exists n: nat :: FitExactly(candles, d, n)
  {
    if Ends(candles, d) {
      var n := CountFrom(candles, d, 0);
      assert FitExactly(candles, d, n);
    } else {
      forall n: nat
        ensures !FitExactly(candles, d, n)
      {
        SameWindowAgain(candles, d, n);
      }
    }
  }

  lemma SameWindowAgain(candles: seq<Candle>, d: Days, k: nat)
    requires candles != [] && d.step == 0 && Fits(candles, d, 0)
    ensures Fits(candles, d, k)
  {
    assert Cursor(candles, d, k) == Cursor(candles, d, 0);
  }

  /** The windows that fit are exactly the first `n`; those with an empty part are dropped. */
  method CalendarWindows(candles: seq<Candle>, d: Days) returns (windows: seq<Window>, ghost n: nat)
    requires candles != [] && Ends(candles, d)
    ensures windows == Calendar(candles, d, n) && FitExactly(candles, d, n)
    ensures forall w :: w in windows ==> WellFormed(w, candles)
  {
    windows, n := [], 0;
    var cursor, end := candles[0].timestamp, candles[|candles| - 1].timestamp;
    while cursor + d.training * DAY + d.validation * DAY + d.test * DAY <= end
      invariant cursor == Cursor(candles, d, n) && windows == Calendar(candles, d, n)
      invariant forall k: nat :: k < n ==> Fits(candles, d, k)
      decreases end - cursor
    {
      var w := CalendarWindow(candles, d, cursor);
      if Full(w) {
        windows := windows + [w];
      }
      assert Fits(candles, d, n);
      LaterFitsLess(candles, d, 0, n);
      Next(n, d.step * DAY);
      cursor := cursor + d.step * DAY;
      n := n + 1;
    }
    forall k: nat | Fits(candles, d, k)
      ensures k < n
    {
      if k >= n {
        LaterFitsLess(candles, d, n, k);
      }
    }
    CalendarIsWellFormed(candles, d, n);
  }

  // ----- either form -----

  /** The bar counts in force; a step of zero is a quarter of the training bars. */
  function GivenBars(training: nat, validation: nat, test: nat, step: nat): Bars {
    Bars(training, validation, test, if step > 0 then step else MaxInt(1, training / 4))
  }

  ghost predicate AreBarWindows(windows: seq<Window>, candles: seq<Candle>, b: Bars)
    requires b.Valid()
  {
    |windows| == WindowCount(|candles|, b) && forall k :: 0 <= k < |windows| ==> IsBarWindow(windows[k], candles, b, k)
  }

  /** Bar counts when all three are given (zero is none), otherwise days, and for a series of at
      least forty candles that is too short for those a proportional split by bars. */
  method WalkForward(candles: seq<Candle>, d: Days, training: nat, validation: nat, test: nat, step: nat)
    returns (windows: seq<Window>, ghost n: nat)
    requires candles == [] || GivenBars(training, validation, test, step).Valid() || Ends(candles, d)
    ensures candles == [] ==> windows == []
    ensures candles != [] && GivenBars(training, validation, test, step).Valid() ==>
      AreBarWindows(windows, candles, GivenBars(training, validation, test, step))
    ensures candles != [] && !GivenBars(training, validation, test, step).Valid() ==>
      && FitExactly(candles, d, n)
      && (if Calendar(candles, d, n) == [] && 40 <= |candles|
          then AreBarWindows(windows, candles, ShortSeries(|candles|))
          else windows == Calendar(candles, d, n))
    ensures !GivenBars(training, validation, test, step).Valid() && 40 <= |candles| ==> windows != []
  {
    windows, n := [], 0;
    if candles == [] {
      return;
    }
    if training > 0 && validation > 0 && test > 0 {
      windows := BarWindows(candles, GivenBars(training, validation, test, step));
      return;
    }
    windows, n := CalendarWindows(candles, d);
    if windows == [] && 40 <= |candles| {
      windows := BarWindows(candles, ShortSeries(|candles|));
    }
  }

  function ShortSeries(n: nat): (b: Bars)
    ensures b.Valid()
    ensures 40 <= n ==> 0 < WindowCount(n, b)
  {
    var t := MaxInt(10, n / 3);
    Bars(t, MaxInt(5, n / 6), MaxInt(5, n / 6), MaxInt(1, t / 3))
  }

  /** The parts of a bar window are not empty and, joined, are a stretch of the series: nothing is
      shared between them, skipped or reordered. */
  lemma BarWindowIsAStretch(candles: seq<Candle>, b: Bars, at: nat)
    requires b.Valid() && at + b.Total() <= |candles|
    ensures var w := WindowAt(candles, b, at);
            Full(w) && |w.train.candles| == b.training && |w.validation.candles| == b.validation
            && w.train.candles + w.validation.candles + w.test.candles == candles[at..at + b.Total()]
            && w.train.start == candles[at].timestamp && w.test.end == candles[at + b.Total() - 1].timestamp
  {
  }
}
