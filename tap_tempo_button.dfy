/**
 * The stand-alone tap button of `components/TapTempo.tsx`. It keeps at most
 * the five latest taps. A pause of more than two seconds restarts the list
 * with the new tap and reports nothing. Otherwise the tempo of the stored
 * taps is handed to `onBpmChange` when it is in range. `now` is the tap's
 * `performance.now()` in milliseconds.
 */
module TapTempoButton {
  import opened Wrappers
  import JsMath
  import TempoEstimate

  const ResetGap: real := 2000.0
  /** The most taps the button keeps. */
  const MaxTaps: nat := 5

  /** The tap comes more than 2 s after the last stored one. */
  predicate IsPause(taps: seq<real>, now: real)
  {
    |taps| > 0 && now - taps[|taps| - 1] > ResetGap
  }

  /** `[...taps, now]`, with the oldest tap dropped (`shift`) when that makes six. */
  function Appended(taps: seq<real>, now: real): (t: seq<real>)
    ensures |taps| < MaxTaps ==> t == taps + [now]
    ensures |taps| >= MaxTaps ==> t == (taps + [now])[1..]
  {
    var newTaps := taps + [now];
    if |newTaps| > MaxTaps then newTaps[1..] else newTaps
  }

  /** The stored taps after a tap at `now`. */
  function AfterTap(taps: seq<real>, now: real): seq<real>
  {
    if IsPause(taps, now) then [now] else Appended(taps, now)
  }

  /** The value `onBpmChange` receives for a tap, if it is called. */
  function Reported(taps: seq<real>, now: real): Option<int>
  {
    if IsPause(taps, now) then None
    else
      var newTaps := Appended(taps, now);
      if |newTaps| >= 2 then TempoEstimate.TempoOf(newTaps) else None
  }

  /** Taps in non-decreasing order. */
  predicate Sorted(s: seq<real>)
  {
    forall i, j :: 0 <= i < j < |s| ==> s[i] <= s[j]
  }

  class Button {
    var taps: seq<real>

    ghost predicate Valid()
      reads this
    {
      |taps| <= MaxTaps
    }

    constructor()
      ensures Valid() && taps == []
    {
      taps := [];
    }

    /** `handleTap`: updates the stored taps and returns what `onBpmChange` is called with. */
    method HandleTap(now: real) returns (callback: Option<int>)
      requires Valid()
      modifies this
      ensures Valid()
      ensures taps == AfterTap(old(taps), now)
      ensures callback == Reported(old(taps), now)
    {
      if |taps| > 0 && now - taps[|taps| - 1] > ResetGap {
        taps := [now];
        return None;
      }
      var newTaps := taps + [now];
      if |newTaps| > MaxTaps {
        newTaps := newTaps[1..];
      }
      taps := newTaps;
      callback := None;
      if |newTaps| >= 2 {
        var intervals := TempoEstimate.Intervals(newTaps);
        var avg := JsMath.Sum(intervals) / |intervals| as real;
        var bpm := TempoEstimate.TempoFromAverage(avg);
        if bpm.Some? {
          callback := bpm;
        }
      }
    }
  }

  /**
   * After a pause the list is exactly the new tap and the callback is not
   * called; otherwise the new tap is the last one stored and at most five
   * are kept, the newest ones.
   */
  lemma AfterTapShape(taps: seq<real>, now: real)
    requires |taps| <= MaxTaps
    ensures IsPause(taps, now) ==> AfterTap(taps, now) == [now] && Reported(taps, now).None?
    ensures var t := AfterTap(taps, now);
      && 1 <= |t| <= MaxTaps
      && t[|t| - 1] == now
      && (!IsPause(taps, now) ==> t[..|t| - 1] == taps[|taps| - (|t| - 1)..])
  {
    if !IsPause(taps, now) {
      var t := AfterTap(taps, now);
      assert t[..|t| - 1] == taps[|taps| - (|t| - 1)..];
    }
  }

  /** A reported tempo comes from at least two taps and is inside [30, 300]. */
  lemma CallbackGate(taps: seq<real>, now: real)
    requires Reported(taps, now).Some?
    ensures !IsPause(taps, now) && |AfterTap(taps, now)| >= 2
    ensures 30 <= Reported(taps, now).value <= 300
    ensures Reported(taps, now) == TempoEstimate.TempoOf(AfterTap(taps, now))
  {
  }

  /** Taps arriving in time order keep the stored list sorted. */
  lemma {:induction false} StaysSorted(taps: seq<real>, now: real)
    requires Sorted(taps)
    requires |taps| > 0 ==> taps[|taps| - 1] <= now
    ensures Sorted(AfterTap(taps, now))
  {
    var all := taps + [now];
    assert Sorted(all) by {
      forall i, j | 0 <= i < j < |all|
        ensures all[i] <= all[j]
      {
        if j == |taps| && i < |taps| {
          assert taps[i] <= taps[|taps| - 1];
        }
      }
    }
    if |all| > MaxTaps {
      assert Appended(taps, now) == all[1..];
      assert forall i, j :: 0 <= i < j < |all| - 1 ==> all[1..][i] == all[i + 1] && all[1..][j] == all[j + 1];
    }
  }
}
