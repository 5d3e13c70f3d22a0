/** Sums, means and bounds of stretches of a price series. */
module Windows {
  function Sum(s: seq<real>): real {
    if s == [] then 0.0 else Sum(s[..|s| - 1]) + s[|s| - 1]
  }

  lemma SumOne(s: seq<real>, x: real)
    ensures Sum(s + [x]) == Sum(s) + x
  {
    assert (s + [x])[..|s|] == s;
  }

  lemma {:induction false} SumTail(s: seq<real>)
    requires s != []
    ensures Sum(s) == s[0] + Sum(s[1..])
  {
    if |s| > 1 {
      SumTail(s[..|s| - 1]);
      assert s[..|s| - 1][1..] == s[1..][..|s| - 2];
    }
  }

  /** Sliding a window one place: one value leaves, one enters. */
  lemma SumSlides(values: seq<real>, lo: nat, hi: nat)
    requires lo < hi < |values|
    ensures Sum(values[lo + 1..hi + 1]) == Sum(values[lo..hi]) - values[lo] + values[hi]
  {
    assert values[lo..hi + 1] == values[lo..hi] + [values[hi]];
    SumOne(values[lo..hi], values[hi]);
    SumTail(values[lo..hi + 1]);
    assert values[lo..hi + 1][1..] == values[lo + 1..hi + 1];
  }

  ghost predicate Within(s: seq<real>, low: real, high: real) {
    forall i :: 0 <= i < |s| ==> low <= s[i] <= high
  }

  lemma {:induction false} SumWithin(s: seq<real>, low: real, high: real)
    requires Within(s, low, high)
    ensures |s| as real * low <= Sum(s) <= |s| as real * high
  {
    if s != [] {
      SumWithin(s[..|s| - 1], low, high);
      assert (|s| - 1) as real * low + low == |s| as real * low;
      assert (|s| - 1) as real * high + high == |s| as real * high;
    }
  }

  function Mean(s: seq<real>): real
    requires s != []
  {
    Sum(s) / |s| as real
  }

  lemma ScaleLess(x: real, y: real, n: real)
    requires x < y && 0.0 < n
    ensures x * n < y * n
  {
  }

  lemma QuotientAtLeast(x: real, n: real, low: real)
    requires n > 0.0 && n * low <= x
    ensures low <= x / n
  {
    if x / n < low {
      ScaleLess(x / n, low, n);
    }
  }

  lemma QuotientAtMost(x: real, n: real, high: real)
    requires n > 0.0 && x <= n * high
    ensures x / n <= high
  {
    if high < x / n {
      ScaleLess(high, x / n, n);
    }
  }

  lemma MeanWithin(s: seq<real>, low: real, high: real)
    requires s != [] && Within(s, low, high)
    ensures low <= Mean(s) <= high
  {
    SumWithin(s, low, high);
    QuotientAtLeast(Sum(s), |s| as real, low);
    QuotientAtMost(Sum(s), |s| as real, high);
  }
}
