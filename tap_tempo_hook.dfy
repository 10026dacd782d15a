/**
 * The tap-tempo hook of `hooks/useTapTempo.ts`. It keeps every tap of the
 * current sequence, starts a new sequence after a pause of more than two
 * seconds, and reports the sequence's length (the bar length the app adopts)
 * with the tempo of its last five taps. `now` is the tap's
 * `performance.now()` in milliseconds.
 */
module TapTempoHook {
  import opened Wrappers
  import JsMath
  import TempoEstimate

  /** The pause, in milliseconds, after which a tap starts a new sequence. */
  const ResetGap: real := 2000.0
  /** How many of the latest taps feed the tempo. */
  const WindowSize: nat := 5

  /** A tap at `now` starts a new sequence: there are taps and the last is more than 2 s old. */
  predicate StartsNewSequence(taps: seq<real>, now: real)
  {
    |taps| > 0 && now - taps[|taps| - 1] > ResetGap
  }

  /** The stored taps after a tap at `now`. */
  function AfterTap(taps: seq<real>, now: real): (t: seq<real>)
    ensures StartsNewSequence(taps, now) ==> t == [now]
    ensures !StartsNewSequence(taps, now) ==> t == taps + [now]
  {
    (if StartsNewSequence(taps, now) then [] else taps) + [now]
  }

  /** `newTaps.slice(-5)`: the last `min(5, n)` taps. */
  function RecentTaps(taps: seq<real>): (w: seq<real>)
    ensures |w| == if |taps| < WindowSize then |taps| else WindowSize
    ensures w == taps[|taps| - |w|..]
  {
    if |taps| <= WindowSize then taps else taps[|taps| - WindowSize..]
  }

  /** The reported tempo: none below two taps, else the tempo of the recent window. */
  function ReportedTempo(taps: seq<real>): Option<int>
  {
    if |taps| < 2 then None else TempoEstimate.TempoOf(RecentTaps(taps))
  }

  class Hook {
    /** The taps of the current sequence, oldest first. */
    var taps: seq<real>

    constructor()
      ensures taps == []
    {
      taps := [];
    }

    /**
     * `handleTap`: stores the new sequence and reports its tempo and its
     * length, which is what `onAnalysisUpdate` receives.
     */
    method HandleTap(now: real) returns (bpm: Option<int>, count: nat)
      modifies this
      ensures taps == AfterTap(old(taps), now)
      ensures count == |taps| && bpm == ReportedTempo(taps)
    {
      var newTaps := taps;
      if |newTaps| > 0 && now - newTaps[|newTaps| - 1] > ResetGap {
        newTaps := [];
      }
      newTaps := newTaps + [now];
      taps := newTaps;
      count := |newTaps|;
      bpm := None;
      if |newTaps| >= 2 {
        var recent := RecentTaps(newTaps);
        var intervals := TempoEstimate.Intervals(recent);
        var avg := JsMath.Sum(intervals) / |intervals| as real;
        bpm := TempoEstimate.TempoFromAverage(avg);
      }
    }
  }

  /**
   * A pause of more than 2000 ms discards the earlier taps; a pause of
   * exactly 2000 ms keeps them.
   */
  lemma GapIsStrict(taps: seq<real>, now: real)
    requires |taps| > 0
    ensures now - taps[|taps| - 1] > ResetGap ==> AfterTap(taps, now) == [now]
    ensures now - taps[|taps| - 1] == ResetGap ==> AfterTap(taps, now) == taps + [now]
  {
  }

  /**
   * The count is at least one, is one exactly when the tap starts a sequence
   * (or is the first), and otherwise grows by one: the stored list is never
   * truncated within a sequence.
   */
  lemma CountAfterTap(taps: seq<real>, now: real)
    ensures |AfterTap(taps, now)| >= 1
    ensures |AfterTap(taps, now)| == 1 <==> StartsNewSequence(taps, now) || taps == []
    ensures !StartsNewSequence(taps, now) ==> AfterTap(taps, now)[..|taps|] == taps
  {
  }

  /** With a single tap no tempo is reported. */
  lemma OneTapNoTempo(taps: seq<real>)
    requires |taps| < 2
    ensures ReportedTempo(taps).None?
  {
  }

  /**
   * The reported tempo depends only on the recent window and is the
   * rounded tempo of its span over its gaps.
   */
  lemma ReportedTempoOfSpan(taps: seq<real>)
    requires |taps| >= 2
    ensures var w := RecentTaps(taps);
      && |w| >= 2
      && ReportedTempo(taps) == TempoEstimate.TempoFromAverage((w[|w| - 1] - w[0]) / (|w| - 1) as real)
  {
    TempoEstimate.MeanIntervalIsSpan(RecentTaps(taps));
  }

  /**
   * Four taps 500 ms apart report 120 bpm and a count of 4; a fifth tap
   * 3000 ms later starts over with a count of 1 and no tempo.
   */
  lemma FourTapsThenPause()
    ensures var t1 := AfterTap([], 0.0);
      var t2 := AfterTap(t1, 500.0);
      var t3 := AfterTap(t2, 1000.0);
      var t4 := AfterTap(t3, 1500.0);
      var t5 := AfterTap(t4, 4500.0);
      && t4 == [0.0, 500.0, 1000.0, 1500.0] && ReportedTempo(t4) == Some(120)
      && t5 == [4500.0] && ReportedTempo(t5).None?
  {
    var t4 := [0.0, 500.0, 1000.0, 1500.0];
    assert AfterTap(AfterTap(AfterTap(AfterTap([], 0.0), 500.0), 1000.0), 1500.0) == t4;
    assert RecentTaps(t4) == t4;
    TempoEstimate.HalfSecondTapsGive120(t4);
  }
}
