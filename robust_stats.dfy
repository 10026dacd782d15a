/**
 * `getRobustMetric` of `components/DynamicsMeter.tsx`: the outlier-resistant
 * quietest and loudest level of a calibration recording. With fewer than
 * five samples it falls back to -60 dB (quiet) and -5 dB (loud); otherwise
 * it sorts the samples and takes the mean of the lowest 30% (rounded up)
 * or of the highest 30% (from index `floor(0.7 n)`).
 */
module RobustStats {
  import JsMath

  /** Fewer samples than this fall back to the defaults. */
  const MinSamples: nat := 5
  const FallbackMin: real := -60.0
  const FallbackMax: real := -5.0

  predicate Sorted(s: seq<real>)
  {
    forall i, j :: 0 <= i < j < |s| ==> s[i] <= s[j]
  }

  /** Inserts `x` into a sorted sequence. */
  function Insert(x: real, s: seq<real>): (r: seq<real>)
    requires Sorted(s)
    ensures Sorted(r) && multiset(r) == multiset(s) + multiset{x}
    ensures |r| == |s| + 1
    ensures forall k :: 0 <= k < |r| ==> r[k] == x || r[k] in s
  {
    if |s| == 0 then [x]
    else if x <= s[0] then [x] + s
    else
      var rest := Insert(x, s[1..]);
      assert s == [s[0]] + s[1..];
      SortedCons(s[0], rest);
      [s[0]] + rest
  }

  /** A head no larger than any element of a sorted tail keeps the sequence sorted. */
  lemma SortedCons(h: real, rest: seq<real>)
    requires Sorted(rest) && forall k :: 0 <= k < |rest| ==> h <= rest[k]
    ensures Sorted([h] + rest)
  {
  }

  /** `[...arr].sort((a, b) => a - b)`: the samples in ascending order. */
  function Sort(s: seq<real>): (r: seq<real>)
    ensures Sorted(r) && multiset(r) == multiset(s)
    ensures |r| == |s|
  {
    if |s| == 0 then []
    else
      assert s == [s[0]] + s[1..];
      Insert(s[0], Sort(s[1..]))
  }

  /** `reduce((a, b) => a + b, 0) / length` */
  function Mean(s: seq<real>): real
    requires |s| > 0
  {
    JsMath.Sum(s) / |s| as real
  }

  /** A sum of `|s|` values in `[lo, hi]` lies between `|s| * lo` and `|s| * hi`. */
  lemma {:induction false} SumBounds(s: seq<real>, lo: real, hi: real)
    requires forall k :: 0 <= k < |s| ==> lo <= s[k] <= hi
    ensures |s| as real * lo <= JsMath.Sum(s) <= |s| as real * hi
  {
    if |s| > 0 {
      SumBounds(s[1..], lo, hi);
      assert |s| as real * lo == lo + (|s| - 1) as real * lo;
      assert |s| as real * hi == hi + (|s| - 1) as real * hi;
    }
  }

  /** The mean of values in `[lo, hi]` is in `[lo, hi]`. */
  lemma MeanBounds(s: seq<real>, lo: real, hi: real)
    requires |s| > 0
    requires forall k :: 0 <= k < |s| ==> lo <= s[k] <= hi
    ensures lo <= Mean(s) <= hi
  {
    SumBounds(s, lo, hi);
    var n := |s| as real;
    var m := Mean(s);
    assert m * n == JsMath.Sum(s);
    if m < lo {
      assert (lo - m) * n > 0.0;
    }
    if m > hi {
      assert (m - hi) * n > 0.0;
    }
  }

  /** `Math.ceil(n * 0.3)`: how many of the lowest samples set the quiet level. */
  function BottomCount(n: nat): nat
  {
    (3 * n + 9) / 10
  }

  /** `Math.floor(n * 0.7)`: where the loudest samples start. */
  function TopStart(n: nat): nat
  {
    (7 * n) / 10
  }

  /**
   * With at least five samples both slices are non-empty, and every index of
   * the bottom slice is below every index of the top slice.
   */
  lemma SliceBounds(n: nat)
    requires n >= MinSamples
    ensures 0 < BottomCount(n) <= TopStart(n) < n
    ensures 10 * BottomCount(n) >= 3 * n && 10 * TopStart(n) <= 7 * n
  {
  }

  /** `getRobustMetric(arr, 'min')` */
  function RobustMin(arr: seq<real>): real
  {
    if |arr| < MinSamples then FallbackMin
    else
      SliceBounds(|arr|);
      Mean(Sort(arr)[..BottomCount(|arr|)])
  }

  /** `getRobustMetric(arr, 'max')` */
  function RobustMax(arr: seq<real>): real
  {
    if |arr| < MinSamples then FallbackMax
    else
      SliceBounds(|arr|);
      Mean(Sort(arr)[TopStart(|arr|)..])
  }

  /** A sorted copy holds the same values as the original. */
  lemma SortedFrom(arr: seq<real>, lo: real, hi: real)
    requires forall x :: x in arr ==> lo <= x <= hi
    ensures forall k :: 0 <= k < |arr| ==> lo <= Sort(arr)[k] <= hi
  {
    var s := Sort(arr);
    forall k | 0 <= k < |arr| ensures lo <= s[k] <= hi {
      assert s[k] in multiset(s);
      assert s[k] in multiset(arr);
      assert s[k] in arr;
    }
  }

  /**
   * With five samples or more, both robust levels are means of recorded
   * samples: they stay within any bounds the samples respect.
   */
  lemma RobustWithinSamples(arr: seq<real>, lo: real, hi: real)
    requires |arr| >= MinSamples
    requires forall x :: x in arr ==> lo <= x <= hi
    ensures lo <= RobustMin(arr) <= hi
    ensures lo <= RobustMax(arr) <= hi
  {
    var n := |arr|;
    SliceBounds(n);
    SortedFrom(arr, lo, hi);
    var s := Sort(arr);
    MeanBounds(s[..BottomCount(n)], lo, hi);
    MeanBounds(s[TopStart(n)..], lo, hi);
  }

  /**
   * On one recording the quiet level never exceeds the loud level: the
   * bottom slice lies below the top slice of the sorted samples.
   */
  lemma RobustMinAtMostMax(arr: seq<real>)
    requires |arr| >= MinSamples
    ensures RobustMin(arr) <= RobustMax(arr)
  {
    var n := |arr|;
    SliceBounds(n);
    var s := Sort(arr);
    var b, t := BottomCount(n), TopStart(n);
    var pivot := s[t];
    var bottom, top := s[..b], s[t..];
    assert forall k :: 0 <= k < |bottom| ==> s[0] <= bottom[k] <= pivot;
    assert forall k :: 0 <= k < |top| ==> pivot <= top[k] <= s[n - 1];
    MeanBounds(bottom, s[0], pivot);
    MeanBounds(top, pivot, s[n - 1]);
  }

  /** Below five samples the fixed -60 dB and -5 dB levels are used. */
  lemma FewSamplesFallBack(quiet: seq<real>, loud: seq<real>)
    requires |quiet| < MinSamples && |loud| < MinSamples
    ensures RobustMin(quiet) == -60.0 && RobustMax(loud) == -5.0
  {
  }
}
