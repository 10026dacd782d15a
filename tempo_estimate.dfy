/**
 * The tempo estimate shared by the two tap-tempo versions
 * (`hooks/useTapTempo.ts` and `components/TapTempo.tsx`): the intervals
 * between consecutive taps of a window, their mean, and the rounded,
 * range-checked beats per minute. Tap times are milliseconds.
 */
module TempoEstimate {
  import opened Wrappers
  import JsMath
  import Constants

  /** Consecutive differences `s[i+1] - s[i]`. */
  function Diffs(s: seq<real>): (d: seq<real>)
    ensures |d| == if |s| == 0 then 0 else |s| - 1
    ensures forall i :: 0 <= i < |d| ==> d[i] == s[i + 1] - s[i]
  {
    if |s| < 2 then [] else [s[1] - s[0]] + Diffs(s[1..])
  }

  /** The intervals telescope: their sum is the span of the window. */
  lemma {:induction false} SumDiffsTelescopes(s: seq<real>)
    requires |s| >= 1
    ensures JsMath.Sum(Diffs(s)) == s[|s| - 1] - s[0]
  {
    if |s| >= 2 {
      SumDiffsTelescopes(s[1..]);
      assert Diffs(s)[1..] == Diffs(s[1..]);
    }
  }

  /** The `for` loop that builds `intervals` from the window. */
  method Intervals(window: seq<real>) returns (intervals: seq<real>)
    ensures intervals == Diffs(window)
  {
    intervals := [];
    var i := 1;
    while i < |window|
      invariant 1 <= i <= if |window| == 0 then 1 else |window|
      invariant |intervals| == i - 1
      invariant forall k :: 0 <= k < |intervals| ==> intervals[k] == window[k + 1] - window[k]
    {
      intervals := intervals + [window[i] - window[i - 1]];
      i := i + 1;
    }
    var d := Diffs(window);
    assert |intervals| == |d|;
    forall k | 0 <= k < |intervals|
      ensures intervals[k] == d[k]
    {
      assert d[k] == window[k + 1] - window[k];
      assert intervals[k] == window[k + 1] - window[k];
    }
  }

  /** `avgInterval`: the mean of the window's intervals. */
  function MeanInterval(window: seq<real>): real
    requires |window| >= 2
  {
    JsMath.Sum(Diffs(window)) / (|window| - 1) as real
  }

  /** The mean interval is the window's span over its number of gaps. */
  lemma MeanIntervalIsSpan(window: seq<real>)
    requires |window| >= 2
    ensures MeanInterval(window) == (window[|window| - 1] - window[0]) / (|window| - 1) as real
  {
    SumDiffsTelescopes(window);
  }

  /**
   * `Math.round(60000 / avgInterval)` kept only inside [MIN_BPM, MAX_BPM].
   * A zero average (taps at the same instant) gives `Infinity` in the source,
   * which fails the range check, and so does every negative average.
   */
  function TempoFromAverage(avg: real): (bpm: Option<int>)
    ensures bpm.Some? ==> Constants.MIN_BPM <= bpm.value <= Constants.MAX_BPM
    ensures bpm.Some? ==> avg > 0.0 && bpm.value == JsMath.Round(60000.0 / avg)
    ensures bpm.None? ==> avg == 0.0 || JsMath.Round(60000.0 / avg) < Constants.MIN_BPM
                          || JsMath.Round(60000.0 / avg) > Constants.MAX_BPM
  {
    if avg == 0.0 then None
    else
      var calculated := JsMath.Round(60000.0 / avg);
      if Constants.MIN_BPM <= calculated <= Constants.MAX_BPM then Some(calculated) else None
  }

  /** The tempo a window of at least two taps gives. */
  function TempoOf(window: seq<real>): Option<int>
    requires |window| >= 2
  {
    TempoFromAverage(MeanInterval(window))
  }

  /**
   * A reported tempo is the rounded beats per minute of the mean interval:
   * within one half of `60000 / avg`, and the mean interval itself lies between
   * roughly 199.7 ms (300 bpm) and 2034 ms (30 bpm).
   */
  lemma TempoMeansInterval(avg: real)
    requires TempoFromAverage(avg).Some?
    ensures var b := TempoFromAverage(avg).value as real;
      b - 0.5 <= 60000.0 / avg < b + 0.5
    ensures 60000.0 / 300.5 < avg <= 60000.0 / 29.5
  {
    var b := TempoFromAverage(avg).value as real;
    var q := 60000.0 / avg;
    assert q * avg == 60000.0;
    assert 29.5 <= q < 300.5;
    assert 29.5 * avg <= 60000.0;
    assert 300.5 * avg > 60000.0;
  }

  /** Taps evenly spaced `p` milliseconds apart. */
  ghost predicate EvenlySpaced(window: seq<real>, p: real)
  {
    forall i :: 0 <= i < |window| ==> window[i] == window[0] + i as real * p
  }

  /** Evenly spaced taps have that spacing as their mean interval. */
  lemma EvenSpacingMean(window: seq<real>, p: real)
    requires |window| >= 2 && EvenlySpaced(window, p)
    ensures MeanInterval(window) == p
  {
    MeanIntervalIsSpan(window);
    var n := |window| - 1;
    assert window[n] - window[0] == n as real * p;
  }

  /** Taps 500 ms apart give 120 bpm. */
  lemma HalfSecondTapsGive120(window: seq<real>)
    requires |window| >= 2 && EvenlySpaced(window, 500.0)
    ensures TempoOf(window) == Some(120)
  {
    EvenSpacingMean(window, 500.0);
    assert 60000.0 / 500.0 == 120.0;
  }
}
