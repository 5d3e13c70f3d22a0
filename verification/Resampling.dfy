/** Candles aggregated into longer bars, and the filter that drops the bar still in progress. */
module Resampling {
  import opened Prelude
  import opened Candles

  /** The source language's remainder, which takes the sign of the divisor. */
  function FloorMod(x: int, m: int): int
    requires m != 0
  {
    if m > 0 then x % m else -((-x) % -m)
  }

  /** The start of the bar a timestamp belongs to, for bars of `width` seconds. */
  function Bucket(ts: int, width: int): int
    requires width != 0
  {
    ts - FloorMod(ts, width)
  }

  // ----- what resampling means -----

  /** The candles of one bar, in the order they came. */
  function Group(candles: seq<Candle>, width: int, key: int): (g: seq<Candle>)
    requires width != 0
  {
    if candles == [] then []
    else
      var rest, c := Group(candles[..|candles| - 1], width, key), candles[|candles| - 1];
      if Bucket(c.timestamp, width) == key then rest + [c] else rest
  }

  function Volume(group: seq<Candle>): real {
    if group == [] then 0.0 else Volume(group[..|group| - 1]) + group[|group| - 1].volume
  }

  /** First open, highest high, lowest low, last close, total volume. */
  function Bar(key: int, group: seq<Candle>): Candle
    requires group != []
  {
    Candle(key, group[0].open, Highest(group), Lowest(group), group[|group| - 1].close, Volume(group))
  }

  predicate Ascending(bars: seq<Candle>) {
    forall i, j :: 0 <= i < j < |bars| ==> bars[i].timestamp < bars[j].timestamp
  }

  function Stamps(bars: seq<Candle>): set<int> { set b | b in bars :: b.timestamp }

  /** `bars` are the bars of the candles: one for every bucket that any candle falls in, in
      ascending order, each summing up the candles of its bucket. */
  ghost predicate Aggregates(bars: seq<Candle>, candles: seq<Candle>, width: int)
    requires width != 0
  {
    && Ascending(bars)
    && (forall key :: key in Stamps(bars) <==> Group(candles, width, key) != [])
    && forall b :: b in bars ==> Sums(b, candles, width)
  }

  /** A bar sums up the candles of its bucket. */
  ghost predicate Sums(bar: Candle, candles: seq<Candle>, width: int)
    requires width != 0
  {
    var group := Group(candles, width, bar.timestamp);
    group != [] && bar == Bar(bar.timestamp, group)
  }

  // ----- one candle at a time -----

  function Merged(bar: Candle, c: Candle): Candle {
    Candle(bar.timestamp, bar.open, Max(bar.high, c.high), Min(bar.low, c.low), c.close, bar.volume + c.volume)
  }

  /** The bars after one more candle: joined to its bar, or a bar of its own in its place. */
  function Absorb(bars: seq<Candle>, c: Candle, width: int): (r: seq<Candle>)
    requires width != 0
    ensures r != []
    ensures Volume(r) == Volume(bars) + c.volume
  {
    var key := Bucket(c.timestamp, width);
    if bars == [] || bars[|bars| - 1].timestamp < key then
      assert (bars + [c.(timestamp := key)])[..|bars|] == bars;
      bars + [c.(timestamp := key)]
    else
      var init, last := bars[..|bars| - 1], bars[|bars| - 1];
      if last.timestamp == key then
        assert (init + [Merged(last, c)])[..|init|] == init;
        init + [Merged(last, c)]
      else
        assert (Absorb(init, c, width) + [last])[..|Absorb(init, c, width)|] == Absorb(init, c, width);
        Absorb(init, c, width) + [last]
  }

  function Resample(candles: seq<Candle>, width: int): seq<Candle>
    requires width != 0
  {
    if candles == [] then [] else Absorb(Resample(candles[..|candles| - 1], width), candles[|candles| - 1], width)
  }

  /** No volume is lost or made, whatever the order of the candles. */
  lemma {:induction false} VolumeIsConserved(candles: seq<Candle>, width: int)
    requires width != 0
    ensures Volume(Resample(candles, width)) == Volume(candles)
  {
    if candles != [] {
      VolumeIsConserved(candles[..|candles| - 1], width);
    }
  }

  lemma StampsGrow(init: seq<Candle>, last: Candle)
    ensures Stamps(init + [last]) == Stamps(init) + {last.timestamp}
    ensures Ascending(init + [last]) <==> Ascending(init) && forall b :: b in init ==> b.timestamp < last.timestamp
  {
    var all := init + [last];
    assert forall b :: b in all <==> b in init || b == last;
    if Ascending(all) {
      assert forall i :: 0 <= i < |init| ==> all[i] == init[i] && all[i].timestamp < all[|init|].timestamp;
    }
  }

  lemma AscendingLast(init: seq<Candle>, last: Candle)
    ensures Ascending(init + [last]) <==> Ascending(init) && forall k :: k in Stamps(init) ==> k < last.timestamp
  {
    StampsGrow(init, last);
    if forall k :: k in Stamps(init) ==> k < last.timestamp {
      assert forall b :: b in init ==> b.timestamp in Stamps(init);
    }
  }

  /** Absorbing a candle adds its bucket, in its place. */
  lemma {:induction false} AbsorbedStamps(bars: seq<Candle>, c: Candle, width: int)
    requires width != 0
    ensures Stamps(Absorb(bars, c, width)) == Stamps(bars) + {Bucket(c.timestamp, width)}
  {
    var key := Bucket(c.timestamp, width);
    if bars == [] || bars[|bars| - 1].timestamp < key {
      StampsGrow(bars, c.(timestamp := key));
    } else {
      var init, last := bars[..|bars| - 1], bars[|bars| - 1];
      assert bars == init + [last];
      StampsGrow(init, last);
      if last.timestamp == key {
        StampsGrow(init, Merged(last, c));
      } else {
        AbsorbedStamps(init, c, width);
        StampsGrow(Absorb(init, c, width), last);
      }
    }
  }

  lemma {:induction false} AbsorbedAscending(bars: seq<Candle>, c: Candle, width: int)
    requires width != 0 && Ascending(bars)
    ensures Ascending(Absorb(bars, c, width))
  {
    var key := Bucket(c.timestamp, width);
    if bars != [] && key <= bars[|bars| - 1].timestamp {
      var init, last := bars[..|bars| - 1], bars[|bars| - 1];
      assert bars == init + [last];
      AscendingLast(init, last);
      if key < last.timestamp {
        AbsorbedAscending(init, c, width);
        AbsorbedStamps(init, c, width);
        var r := Absorb(init, c, width);
        assert forall k :: k in Stamps(r) ==> k < last.timestamp;
        AscendingLast(r, last);
      } else {
        AscendingLast(init, Merged(last, c));
      }
    } else {
      AscendingLast(bars, c.(timestamp := key));
    }
  }

  /** Where a bar of the absorbed series comes from. */
  ghost predicate Stems(b: Candle, bars: seq<Candle>, c: Candle, key: int) {
    if b.timestamp != key then b in bars
    else if key in Stamps(bars) then exists a :: a in bars && a.timestamp == key && b == Merged(a, c)
    else b == c.(timestamp := key)
  }

  lemma {:induction false} AbsorbedStems(bars: seq<Candle>, c: Candle, width: int, b: Candle)
    requires width != 0 && Ascending(bars) && b in Absorb(bars, c, width)
    ensures Stems(b, bars, c, Bucket(c.timestamp, width))
  {
    var key := Bucket(c.timestamp, width);
    if bars != [] {
      var init, last := bars[..|bars| - 1], bars[|bars| - 1];
      assert bars == init + [last];
      StampsGrow(init, last);
      if last.timestamp > key && b != last {
        AbsorbedStems(init, c, width, b);
      }
    }
  }

  lemma GroupGrows(candles: seq<Candle>, c: Candle, width: int, key: int)
    requires width != 0
    ensures Group(candles + [c], width, key)
         == if Bucket(c.timestamp, width) == key then Group(candles, width, key) + [c] else Group(candles, width, key)
  {
    assert (candles + [c])[..|candles|] == candles;
  }

  lemma MergedBar(key: int, group: seq<Candle>, c: Candle)
    requires group != []
    ensures Merged(Bar(key, group), c) == Bar(key, group + [c])
  {
    assert (group + [c])[..|group|] == group;
  }

  lemma AbsorbAggregates(bars: seq<Candle>, candles: seq<Candle>, c: Candle, width: int)
    requires width != 0 && Aggregates(bars, candles, width)
    ensures Aggregates(Absorb(bars, c, width), candles + [c], width)
  {
    var key, r := Bucket(c.timestamp, width), Absorb(bars, c, width);
    AbsorbedAscending(bars, c, width);
    AbsorbedStamps(bars, c, width);
    forall k
      ensures k in Stamps(r) <==> Group(candles + [c], width, k) != []
    {
      GroupGrows(candles, c, width, k);
    }
    forall b | b in r
      ensures Sums(b, candles + [c], width)
    {
      AbsorbedStems(bars, c, width, b);
      StemSums(b, bars, candles, c, width);
    }
  }

  lemma StemSums(b: Candle, bars: seq<Candle>, candles: seq<Candle>, c: Candle, width: int)
    requires width != 0 && Aggregates(bars, candles, width) && Stems(b, bars, c, Bucket(c.timestamp, width))
    ensures Sums(b, candles + [c], width)
  {
    var key, group := Bucket(c.timestamp, width), Group(candles, width, b.timestamp);
    GroupGrows(candles, c, width, b.timestamp);
    if b.timestamp != key {
      assert Sums(b, candles, width);
    } else if key in Stamps(bars) {
      var a :| a in bars && a.timestamp == key && b == Merged(a, c);
      assert Sums(a, candles, width);
      MergedBar(key, group, c);
    } else {
      assert group == [] && group + [c] == [c];
      assert [c][..0] == [] && Volume([c]) == c.volume;
    }
  }

  /** The one-at-a-time aggregate is the aggregate of the groups, in any order of the candles. */
  lemma {:induction false} ResampleAggregates(candles: seq<Candle>, width: int)
    requires width != 0
    ensures Aggregates(Resample(candles, width), candles, width)
  {
    if candles != [] {
      var init := candles[..|candles| - 1];
      ResampleAggregates(init, width);
      AbsorbAggregates(Resample(init, width), init, candles[|candles| - 1], width);
      assert candles == init + [candles[|candles| - 1]];
    }
  }

  lemma {:induction false} AscendingUnique(xs: seq<Candle>, ys: seq<Candle>)
    requires Ascending(xs) && Ascending(ys) && forall b :: b in xs <==> b in ys
    ensures xs == ys
  {
    assert ys != [] ==> ys[0] in xs;
    if xs != [] {
      assert xs[|xs| - 1] in ys;
      var x, y, xs', ys' := xs[|xs| - 1], ys[|ys| - 1], xs[..|xs| - 1], ys[..|ys| - 1];
      assert x == y by {
        assert x in ys && y in xs;
      }
      assert forall b :: b in xs <==> b in xs' || b == x;
      assert forall b :: b in ys <==> b in ys' || b == y;
      AscendingUnique(xs', ys');
    }
  }

  /** There is only one aggregate. */
  lemma AggregateIsUnique(xs: seq<Candle>, ys: seq<Candle>, candles: seq<Candle>, width: int)
    requires width != 0 && Aggregates(xs, candles, width) && Aggregates(ys, candles, width)
    ensures xs == ys
  {
    SameBars(xs, ys, candles, width);
    SameBars(ys, xs, candles, width);
    AscendingUnique(xs, ys);
  }

  lemma SameBars(xs: seq<Candle>, ys: seq<Candle>, candles: seq<Candle>, width: int)
    requires width != 0 && Aggregates(xs, candles, width) && Aggregates(ys, candles, width)
    ensures forall b :: b in xs ==> b in ys
  {
    forall b | b in xs
      ensures b in ys
    {
      assert Sums(b, candles, width) && b.timestamp in Stamps(ys);
      var a :| a in ys && a.timestamp == b.timestamp;
      assert Sums(a, candles, width);
    }
  }

  // ----- composition -----

  predicate Chronological(candles: seq<Candle>) {
    forall i, j :: 0 <= i < j < |candles| ==> candles[i].timestamp <= candles[j].timestamp
  }

  lemma Distribute(a: int, b: int, c: int)
    ensures (a + b) * c == a * c + b * c
  {
  }

  lemma Reassociate(m: int, times: int, width: int)
    ensures (m * times) * width == m * (width * times)
  {
  }

  lemma NonNegative(a: int, b: int)
    requires 0 <= a && 0 <= b
    ensures 0 <= a * b
  {
  }

  lemma Regroup(m: int, times: int, n: int, width: int)
    requires 0 <= n < times && 0 < width
    ensures (m * times + n) * width == m * (width * times) + n * width
    ensures 0 <= n * width <= width * times - width
  {
    Distribute(m * times, n, width);
    Reassociate(m, times, width);
    NonNegative(n, width);
    NonNegative(times - 1 - n, width);
    Distribute(times - 1 - n, n, width);
    Distribute(times, -1, width);
  }

  /** A timestamp's bar in the coarse series is that of its bar in the fine one. */
  lemma BucketsNest(ts: int, width: int, times: int)
    requires 0 < width && 0 < times && width * times != 0
    ensures Bucket(Bucket(ts, width), width * times) == Bucket(ts, width * times)
  {
    var q, r := ts / width, ts % width;
    var m, n, coarse := q / times, q % times, width * times;
    Regroup(m, times, n, width);
    assert (m * times + n) * width == q * width == Bucket(ts, width);
    Remainder(q * width, coarse, m, n * width);
    Remainder(ts, coarse, m, n * width + r);
  }

  lemma SmallMultiple(k: int, d: int)
    requires -d < k * d < d
    ensures k == 0
  {
    Distribute(k, -1, d);
    Distribute(k, 1, d);
    if k > 0 {
      NonNegative(k - 1, d);
    } else if k < 0 {
      NonNegative(-k - 1, d);
    }
  }

  lemma Remainder(x: int, d: int, q: int, r: int)
    requires 0 < d && x == q * d + r && 0 <= r < d
    ensures x - x % d == q * d
  {
    Distribute(x / d, -q, d);
    SmallMultiple(x / d - q, d);
  }

  /** Absorbing a bar and then a candle of the same bucket is absorbing their merger. */
  lemma {:induction false} AbsorbMerged(bars: seq<Candle>, x: Candle, c: Candle, width: int)
    requires width != 0 && Bucket(x.timestamp, width) == Bucket(c.timestamp, width)
    ensures Absorb(Absorb(bars, x, width), c, width) == Absorb(bars, Merged(x, c), width)
  {
    var key := Bucket(c.timestamp, width);
    if bars == [] || bars[|bars| - 1].timestamp < key {
      assert (bars + [x.(timestamp := key)])[..|bars|] == bars;
    } else {
      var init, last := bars[..|bars| - 1], bars[|bars| - 1];
      if last.timestamp == key {
        assert (init + [Merged(last, x)])[..|init|] == init;
        assert Merged(Merged(last, x), c) == Merged(last, Merged(x, c));
      } else {
        AbsorbMerged(init, x, c, width);
        var r := Absorb(init, x, width);
        assert (r + [last])[..|r|] == r;
      }
    }
  }

  lemma {:induction false} AbsorbByBucket(bars: seq<Candle>, c: Candle, d: Candle, width: int)
    requires width != 0 && Bucket(c.timestamp, width) == Bucket(d.timestamp, width) && d == c.(timestamp := d.timestamp)
    ensures Absorb(bars, c, width) == Absorb(bars, d, width)
  {
    if bars != [] && Bucket(c.timestamp, width) < bars[|bars| - 1].timestamp {
      AbsorbByBucket(bars[..|bars| - 1], c, d, width);
    }
  }

  lemma BucketsOrdered(s: int, t: int, width: int)
    requires 0 < width && s <= t
    ensures Bucket(s, width) <= Bucket(t, width)
  {
    var p, q := s / width, t / width;
    if q < p {
      assert (q + 1) * width <= p * width;
    }
  }

  lemma {:induction false} BarsBefore(candles: seq<Candle>, width: int, t: int)
    requires 0 < width && forall c :: c in candles ==> c.timestamp <= t
    ensures forall k :: k in Stamps(Resample(candles, width)) ==> k <= Bucket(t, width)
  {
    if candles != [] {
      var init, c := candles[..|candles| - 1], candles[|candles| - 1];
      BarsBefore(init, width, t);
      AbsorbedStamps(Resample(init, width), c, width);
      BucketsOrdered(c.timestamp, t, width);
    }
  }

  lemma ResampleSnoc(candles: seq<Candle>, c: Candle, width: int)
    requires width != 0
    ensures Resample(candles + [c], width) == Absorb(Resample(candles, width), c, width)
  {
    assert (candles + [c])[..|candles|] == candles;
  }

  /** Going to a bar length and then to a multiple of it is going there directly. */
  lemma {:induction false} ResampleComposes(candles: seq<Candle>, width: int, times: int)
    requires 0 < width && 0 < times && width * times != 0 && Chronological(candles)
    ensures Resample(Resample(candles, width), width * times) == Resample(candles, width * times)
  {
    if candles != [] {
      var init, c := candles[..|candles| - 1], candles[|candles| - 1];
      ResampleComposes(init, width, times);
      BarsBefore(init, width, c.timestamp);
      BucketsNest(c.timestamp, width, times);
      OneMoreComposes(Resample(init, width), c, width, width * times);
    }
  }

  /** The same, for any series that are the aggregates. */
  lemma AggregatesCompose(candles: seq<Candle>, fine: seq<Candle>, coarse: seq<Candle>, width: int, times: int)
    requires 0 < width && 0 < times && width * times != 0 && Chronological(candles)
    requires Aggregates(fine, candles, width) && Aggregates(coarse, fine, width * times)
    ensures Aggregates(coarse, candles, width * times)
  {
    ResampleAggregates(candles, width);
    AggregateIsUnique(fine, Resample(candles, width), candles, width);
    ResampleAggregates(fine, width * times);
    AggregateIsUnique(coarse, Resample(fine, width * times), fine, width * times);
    ResampleComposes(candles, width, times);
    ResampleAggregates(candles, width * times);
  }

  lemma OneMoreComposes(fine: seq<Candle>, c: Candle, width: int, coarse: int)
    requires width != 0 && coarse != 0 && forall k :: k in Stamps(fine) ==> k <= Bucket(c.timestamp, width)
    requires Bucket(Bucket(c.timestamp, width), coarse) == Bucket(c.timestamp, coarse)
    ensures Resample(Absorb(fine, c, width), coarse) == Absorb(Resample(fine, coarse), c, coarse)
  {
    var key := Bucket(c.timestamp, width);
    var d := c.(timestamp := key);
    if fine == [] || fine[|fine| - 1].timestamp < key {
      ResampleSnoc(fine, d, coarse);
      AbsorbByBucket(Resample(fine, coarse), c, d, coarse);
    } else {
      var init, last := fine[..|fine| - 1], fine[|fine| - 1];
      assert last.timestamp in Stamps(fine);
      ResampleSnoc(init, Merged(last, c), coarse);
      AbsorbMerged(Resample(init, coarse), last, c, coarse);
    }
  }

  // ----- closed bars -----

  /** The bars whose whole length has passed by `asOf`. */
  function OnlyClosed(bars: seq<Candle>, asOf: int, length: int): seq<Candle> {
    if bars == [] then []
    else
      var rest, last := OnlyClosed(bars[..|bars| - 1], asOf, length), bars[|bars| - 1];
      if last.timestamp + length <= asOf then rest + [last] else rest
  }

  /** Exactly the bars that end at or before `asOf`, each as it is. */
  lemma {:induction false} ClosedExactly(bars: seq<Candle>, asOf: int, length: int, b: Candle)
    ensures b in OnlyClosed(bars, asOf, length) <==> b in bars && b.timestamp + length <= asOf
  {
    if bars != [] {
      ClosedExactly(bars[..|bars| - 1], asOf, length, b);
      assert b in bars <==> b in bars[..|bars| - 1] || b == bars[|bars| - 1];
    }
  }

  /** The candles stamped before `asOf`. */
  function Past(candles: seq<Candle>, asOf: int): seq<Candle> {
    if candles == [] then []
    else
      var rest, last := Past(candles[..|candles| - 1], asOf), candles[|candles| - 1];
      if last.timestamp < asOf then rest + [last] else rest
  }

  lemma ClosedSnoc(bars: seq<Candle>, last: Candle, asOf: int, length: int)
    ensures OnlyClosed(bars + [last], asOf, length)
         == OnlyClosed(bars, asOf, length) + if last.timestamp + length <= asOf then [last] else []
  {
    assert (bars + [last])[..|bars|] == bars;
  }

  /** Absorbing a candle touches the closed bars only when its own bar is closed. */
  lemma {:induction false} AbsorbClosed(bars: seq<Candle>, c: Candle, asOf: int, width: int)
    requires width != 0
    ensures OnlyClosed(Absorb(bars, c, width), asOf, width)
         == if Bucket(c.timestamp, width) + width <= asOf then Absorb(OnlyClosed(bars, asOf, width), c, width)
            else OnlyClosed(bars, asOf, width)
  {
    var key := Bucket(c.timestamp, width);
    if bars == [] || bars[|bars| - 1].timestamp < key {
      ClosedSnoc(bars, c.(timestamp := key), asOf, width);
    } else {
      var init, last := bars[..|bars| - 1], bars[|bars| - 1];
      if last.timestamp == key {
        ClosedSnoc(init, Merged(last, c), asOf, width);
      } else {
        AbsorbClosed(init, c, asOf, width);
        ClosedSnoc(Absorb(init, c, width), last, asOf, width);
      }
    }
  }

  lemma {:induction false} ClosedFromPast(candles: seq<Candle>, width: int, asOf: int)
    requires 0 < width
    ensures OnlyClosed(Resample(candles, width), asOf, width)
         == OnlyClosed(Resample(Past(candles, asOf), width), asOf, width)
  {
    if candles != [] {
      var init, c := candles[..|candles| - 1], candles[|candles| - 1];
      ClosedFromPast(init, width, asOf);
      AbsorbClosed(Resample(init, width), c, asOf, width);
      if c.timestamp < asOf {
        ResampleSnoc(Past(init, asOf), c, width);
        AbsorbClosed(Resample(Past(init, asOf), width), c, asOf, width);
      }
    }
  }

  /** Whatever is stamped at or after `asOf`, in any order, makes no difference to the bars that
      have closed by then. */
  lemma ClosedBarsSeeNoFuture(xs: seq<Candle>, ys: seq<Candle>, width: int, asOf: int)
    requires 0 < width && Past(xs, asOf) == Past(ys, asOf)
    ensures OnlyClosed(Resample(xs, width), asOf, width) == OnlyClosed(Resample(ys, width), asOf, width)
  {
    ClosedFromPast(xs, width, asOf);
    ClosedFromPast(ys, width, asOf);
  }

  // ----- the program's loops -----

  /** The keys in ascending order. */
  method SortedKeys(keys: set<int>) returns (s: seq<int>)
    ensures forall i, j :: 0 <= i < j < |s| ==> s[i] < s[j]
    ensures forall k :: k in s <==> k in keys
  {
    s := [];
    var left := keys;
    while left != {}
      invariant left <= keys && forall k :: k in s <==> k in keys && k !in left
      invariant forall i, j :: 0 <= i < j < |s| ==> s[i] < s[j]
      invariant forall i, k :: 0 <= i < |s| && k in left ==> s[i] < k
      decreases |left|
    {
      var least := Least(left);
      s := s + [least];
      left := left - {least};
    }
  }

  method AnyOf<T(==)>(s: set<T>) returns (x: T)
    requires s != {}
    ensures x in s
  {
    x :| x in s;
  }

  method Least(keys: set<int>) returns (least: int)
    requires keys != {}
    ensures least in keys && forall k :: k in keys ==> least <= k
  {
    least := AnyOf(keys);
    var left := keys - {least};
    while left != {}
      invariant left <= keys && least in keys
      invariant forall k :: k in keys && k !in left ==> least <= k
      decreases |left|
    {
      var k := AnyOf(left);
      if k < least {
        least := k;
      }
      left := left - {k};
    }
  }

  /** The buckets, filled candle by candle. */
  method FillBuckets(candles: seq<Candle>, width: int) returns (bucket: map<int, seq<Candle>>)
    requires width != 0
    ensures forall k :: k in bucket <==> Group(candles, width, k) != []
    ensures forall k :: k in bucket ==> bucket[k] == Group(candles, width, k)
  {
    bucket := map[];
    for i := 0 to |candles|
      invariant forall k :: k in bucket <==> Group(candles[..i], width, k) != []
      invariant forall k :: k in bucket ==> bucket[k] == Group(candles[..i], width, k)
    {
      var key := Bucket(candles[i].timestamp, width);
      assert candles[..i + 1] == candles[..i] + [candles[i]];
      forall k {
        GroupGrows(candles[..i], candles[i], width, k);
      }
      bucket := bucket[key := (if key in bucket then bucket[key] else []) + [candles[i]]];
    }
    assert candles[..|candles|] == candles;
  }

  /** Bars of the given number of minutes; a zero length raises on the first candle. */
  method SynthesizeTimeframe(candles: seq<Candle>, minutes: int) returns (bars: Option<seq<Candle>>)
    ensures bars.None? <==> minutes == 0 && candles != []
    ensures minutes != 0 ==> Aggregates(bars.value, candles, minutes * 60)
    ensures minutes != 0 ==> bars.value == Resample(candles, minutes * 60)
    ensures candles == [] ==> bars == Some([])
  {
    if candles == [] {
      return Some([]);
    }
    if minutes == 0 {
      return None;
    }
    var width := minutes * 60;
    var bucket := FillBuckets(candles, width);
    var keys := SortedKeys(bucket.Keys);
    var out: seq<Candle> := [];
    for i := 0 to |keys|
      invariant |out| == i && forall j :: 0 <= j < i ==> out[j].timestamp == keys[j] && Sums(out[j], candles, width)
    {
      out := out + [Bar(keys[i], bucket[keys[i]])];
    }
    assert forall j :: 0 <= j < |keys| ==> out[j] in out;
    ResampleAggregates(candles, width);
    AggregateIsUnique(out, Resample(candles, width), candles, width);
    bars := Some(out);
  }

  /** The filter, with the length in minutes as the caller gives it. */
  method OnlyClosedCandles(candles: seq<Candle>, asOf: int, minutes: int) returns (closed: seq<Candle>)
    ensures closed == OnlyClosed(candles, asOf, minutes * 60)
  {
    closed := [];
    for i := 0 to |candles|
      invariant closed == OnlyClosed(candles[..i], asOf, minutes * 60)
    {
      assert candles[..i + 1][..i] == candles[..i];
      if candles[i].timestamp + minutes * 60 <= asOf {
        closed := closed + [candles[i]];
      }
    }
    assert candles[..|candles|] == candles;
  }
}
