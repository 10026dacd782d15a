/**
 * The beat scheduler of `hooks/useMetronome.ts`.
 *
 * A coarse host timer calls the scheduler pass; each pass emits every click
 * whose start time falls before the audio clock's current time plus a fixed
 * lookahead, stepping the next-note time by one beat and the (bar, beat)
 * cursor by one position per click. The audio clock is the explicit `now`
 * argument, every emitted click is appended to `events`, and the delayed
 * visual update is the separate method `DrawVisuals`.
 */
module Metronome {
  import opened Wrappers
  import JsMath

  /** SCHEDULE_AHEAD_TIME_SEC: how far ahead of the audio clock clicks are scheduled. */
  const ScheduleAheadTime: real := 0.1
  /** The lead `start` leaves between the audio clock and the first click. */
  const StartLead: real := 0.1
  /** Oscillator frequencies of the click tones. */
  const DownbeatHz: int := 1200
  const BeatHz: int := 800

  /** Seconds between clicks: `60.0 / bpm`. */
  function SecondsPerBeat(bpm: int): (s: real)
    requires bpm > 0
    ensures s > 0.0
    ensures s * bpm as real == 60.0
  {
    60.0 / bpm as real
  }

  /** The position of the scheduler: `barCountRef` and `beatCountRef`. */
  datatype Cursor = Cursor(bar: int, beat: int)

  /** A cursor that lies inside a bar of `beatsPerBar` beats. */
  predicate InBar(c: Cursor, beatsPerBar: int)
  {
    c.bar >= 1 && 1 <= c.beat <= beatsPerBar
  }

  /**
   * One counter step: `beat++`, and when that passes `beatsPerBar` the beat
   * wraps to 1 and the bar moves on.
   */
  function Advance(c: Cursor, beatsPerBar: int): Cursor
  {
    if c.beat + 1 > beatsPerBar then Cursor(c.bar + 1, 1) else Cursor(c.bar, c.beat + 1)
  }

  /**
   * The counter step wraps exactly when the beat has reached the bar length,
   * never moves the bar back, and with a bar of at least one beat lands inside
   * the bar, even when the bar length has just shrunk below the old beat.
   */
  lemma AdvanceWraps(c: Cursor, beatsPerBar: int)
    ensures var n := Advance(c, beatsPerBar);
      && (n.bar == c.bar + 1 && n.beat == 1 <==> c.beat >= beatsPerBar)
      && (n.bar == c.bar && n.beat == c.beat + 1 <==> c.beat < beatsPerBar)
      && (beatsPerBar >= 1 && c.bar >= 1 && c.beat >= 0 ==> InBar(n, beatsPerBar))
  {
  }

  /** `k` counter steps. */
  function AdvanceN(c: Cursor, beatsPerBar: int, k: nat): Cursor
    decreases k
  {
    if k == 0 then c else Advance(AdvanceN(c, beatsPerBar, k - 1), beatsPerBar)
  }

  /** The number of beats from bar 1 beat 1 to the cursor, in a bar of fixed length. */
  function Position(c: Cursor, beatsPerBar: int): int
  {
    (c.bar - 1) * beatsPerBar + (c.beat - 1)
  }

  /** One counter step moves the position on by exactly one beat. */
  lemma AdvanceStepsOnce(c: Cursor, beatsPerBar: int)
    requires InBar(c, beatsPerBar)
    ensures InBar(Advance(c, beatsPerBar), beatsPerBar)
    ensures Position(Advance(c, beatsPerBar), beatsPerBar) == Position(c, beatsPerBar) + 1
  {
    if c.beat == beatsPerBar {
      assert (c.bar + 1 - 1) * beatsPerBar == (c.bar - 1) * beatsPerBar + beatsPerBar;
    }
  }

  /**
   * With a fixed bar length, `k` steps keep the cursor inside the bar, never
   * move the bar back, and advance the position by exactly `k` beats.
   */
  lemma {:induction false} AdvanceNCounts(c: Cursor, beatsPerBar: int, k: nat)
    requires InBar(c, beatsPerBar)
    ensures InBar(AdvanceN(c, beatsPerBar, k), beatsPerBar)
    ensures AdvanceN(c, beatsPerBar, k).bar >= c.bar
    ensures Position(AdvanceN(c, beatsPerBar, k), beatsPerBar) == Position(c, beatsPerBar) + k
    decreases k
  {
    if k > 0 {
      AdvanceNCounts(c, beatsPerBar, k - 1);
      AdvanceStepsOnce(AdvanceN(c, beatsPerBar, k - 1), beatsPerBar);
    }
  }

  /**
   * The close form of the counters: from bar 1 beat 1, the cursor after `k`
   * steps is bar `k / beatsPerBar + 1`, beat `k % beatsPerBar + 1`; so the
   * `k`-th click is a downbeat exactly when `k` is a multiple of the bar length.
   */
  lemma CursorFromStart(beatsPerBar: int, k: nat)
    requires beatsPerBar >= 1
    ensures AdvanceN(Cursor(1, 1), beatsPerBar, k) == Cursor(k / beatsPerBar + 1, k % beatsPerBar + 1)
  {
    var c := AdvanceN(Cursor(1, 1), beatsPerBar, k);
    AdvanceNCounts(Cursor(1, 1), beatsPerBar, k);
    assert (c.bar - 1) * beatsPerBar + (c.beat - 1) == k;
    DivModUnique(c.bar - 1, c.beat - 1, beatsPerBar, k);
  }

  /** Multiplying by a positive factor of at least one does not shrink. */
  lemma MulAtLeast(e: int, d: int)
    requires e >= 1 && d >= 1
    ensures e * d >= d
  {
  }

  /** Integer division and remainder are determined by their defining equation. */
  lemma DivModUnique(q: int, r: int, d: int, n: int)
    requires d >= 1 && 0 <= r < d && n == q * d + r
    ensures n / d == q && n % d == r
  {
    var q', r' := n / d, n % d;
    assert (q - q') * d == r' - r;
    if q > q' {
      MulAtLeast(q - q', d);
    } else if q' > q {
      MulAtLeast(q' - q, d);
    }
  }

  /**
   * A scheduled click as `scheduleNote` sees it: the audio-clock time, the
   * cursor before the advance, whether it is a downbeat, the tone requested
   * from the audio clock (none when muted) and the delay in milliseconds of
   * the visual update.
   */
  datatype Event = Event(time: real, bar: int, beat: int, isDownbeat: bool,
                         tone: Option<int>, visualDelayMs: real)

  /** `Math.max(0, (time - now) * 1000)`: when the visual update is due. */
  function VisualDelay(time: real, now: real): (d: real)
    ensures d >= 0.0
    ensures d == 0.0 <==> time <= now
  {
    JsMath.Max(0.0, (time - now) * 1000.0)
  }

  /** A later click never has its visual update scheduled earlier. */
  lemma VisualDelayMonotone(t1: real, t2: real, now: real)
    requires t1 <= t2
    ensures VisualDelay(t1, now) <= VisualDelay(t2, now)
  {
    assert (t1 - now) * 1000.0 <= (t2 - now) * 1000.0;
  }

  /** `scheduleNote(bar, beat, time)` with `playClick` folded in. */
  function NoteEvent(time: real, c: Cursor, muted: bool, now: real): Event
  {
    var down := c.beat == 1;
    Event(time, c.bar, c.beat, down,
          if muted then None else Some(if down then DownbeatHz else BeatHz),
          VisualDelay(time, now))
  }

  /** The time of the `k`-th click after one at `t0`, `spb` seconds apart. */
  function ClickTime(t0: real, spb: real, k: int): real
  {
    t0 + k as real * spb
  }

  /**
   * The clicks of one scheduler pass: `|es|` clicks from next-note time `t0`
   * and cursor `c0`, one beat apart.
   */
  ghost predicate PassEvents(es: seq<Event>, t0: real, spb: real, c0: Cursor,
                             beatsPerBar: int, muted: bool, now: real)
  {
    forall k :: 0 <= k < |es| ==>
      es[k] == NoteEvent(ClickTime(t0, spb, k), AdvanceN(c0, beatsPerBar, k), muted, now)
  }

  /** A pass's clicks extended by the next click are still a pass's clicks. */
  lemma PassEventsSnoc(es: seq<Event>, t0: real, spb: real, c0: Cursor,
                       beatsPerBar: int, muted: bool, now: real)
    requires PassEvents(es, t0, spb, c0, beatsPerBar, muted, now)
    ensures PassEvents(es + [NoteEvent(ClickTime(t0, spb, |es|), AdvanceN(c0, beatsPerBar, |es|), muted, now)],
                       t0, spb, c0, beatsPerBar, muted, now)
  {
  }

  /**
   * What one lookahead pass from next-note time `t0` and cursor `c0` does:
   * it emits exactly the clicks before `now + 0.1`, one beat apart, and
   * leaves the next-note time `t1` past the window and the cursor `c1`
   * advanced once per click.
   */
  ghost predicate IsPass(t0: real, c0: Cursor, pass: seq<Event>, t1: real, c1: Cursor,
                         now: real, bpm: int, beatsPerBar: int, muted: bool)
    requires bpm > 0
  {
    var spb := SecondsPerBeat(bpm);
    && (forall k :: 0 <= k < |pass| ==> ClickTime(t0, spb, k) < now + ScheduleAheadTime)
    && t1 == ClickTime(t0, spb, |pass|)
    && t1 >= now + ScheduleAheadTime
    && PassEvents(pass, t0, spb, c0, beatsPerBar, muted, now)
    && c1 == AdvanceN(c0, beatsPerBar, |pass|)
  }

  /** Every click from index `from` on lies on the grid `t0 + k * spb`. */
  ghost predicate OnGrid(es: seq<Event>, from: nat, t0: real, spb: real)
  {
    forall k :: from <= k < |es| ==> es[k].time == ClickTime(t0, spb, k - from)
  }

  /** The clicks of a pass are strictly increasing in time, exactly `spb` apart. */
  lemma PassEventsSpaced(es: seq<Event>, t0: real, spb: real, c0: Cursor,
                         beatsPerBar: int, muted: bool, now: real, i: int, j: int)
    requires PassEvents(es, t0, spb, c0, beatsPerBar, muted, now)
    requires spb > 0.0 && 0 <= i < j < |es|
    ensures es[j].time - es[i].time == (j - i) as real * spb
    ensures es[i].time < es[j].time
    ensures es[i].visualDelayMs <= es[j].visualDelayMs
  {
    assert es[i].time == t0 + i as real * spb;
    assert es[j].time == t0 + j as real * spb;
    VisualDelayMonotone(es[i].time, es[j].time, now);
  }

  /**
   * Appending a pass that starts where the grid's next click is keeps every
   * click on the grid: consecutive passes at one tempo do not drift.
   */
  lemma GridExtends(es: seq<Event>, from: nat, a: real, spb: real, pass: seq<Event>,
                    c0: Cursor, beatsPerBar: int, muted: bool, now: real)
    requires from <= |es| && OnGrid(es, from, a, spb)
    requires PassEvents(pass, ClickTime(a, spb, |es| - from), spb, c0, beatsPerBar, muted, now)
    ensures OnGrid(es + pass, from, a, spb)
    ensures ClickTime(ClickTime(a, spb, |es| - from), spb, |pass|) == ClickTime(a, spb, |es + pass| - from)
  {
    var t0 := ClickTime(a, spb, |es| - from);
    forall k | from <= k < |es + pass|
      ensures (es + pass)[k].time == ClickTime(a, spb, k - from)
    {
      if k >= |es| {
        assert (es + pass)[k] == pass[k - |es|];
        assert pass[k - |es|].time == ClickTime(t0, spb, k - |es|);
        ClickTimeAdd(a, spb, |es| - from, k - |es|);
      } else {
        assert (es + pass)[k] == es[k];
      }
    }
    ClickTimeAdd(a, spb, |es| - from, |pass|);
  }

  /** Stepping `m` beats and then `n` beats is stepping `m + n` beats. */
  lemma ClickTimeAdd(a: real, spb: real, m: int, n: int)
    ensures ClickTime(ClickTime(a, spb, m), spb, n) == ClickTime(a, spb, m + n)
  {
    assert (m + n) as real * spb == m as real * spb + n as real * spb;
  }

  /** The time of the `k`-th click grows with `k`; read backwards, an earlier time means a smaller index. */
  lemma BeforeCover(t0: real, spb: real, k: int, n: int)
    requires spb > 0.0 && ClickTime(t0, spb, k) < ClickTime(t0, spb, n)
    ensures k < n
  {
    assert (n - k) as real * spb > 0.0;
  }

  /** A number of beats at `bpm` that covers a window of `gap` seconds. */
  function BeatsToCover(gap: real, bpm: int): (n: nat)
    requires bpm > 0
    ensures n as real * SecondsPerBeat(bpm) >= gap
  {
    if gap <= 0.0 then 0 else
      var x := gap * bpm as real / 60.0;
      var f := x.Floor + 1;
      assert f as real * SecondsPerBeat(bpm) >= x * SecondsPerBeat(bpm);
      assert x * SecondsPerBeat(bpm) == gap * (bpm as real * SecondsPerBeat(bpm)) / 60.0;
      f
  }

  class Metronome {
    var isPlaying: bool
    /** The cursor the display shows (`currentBar`, `currentBeat`). */
    var currentBar: int
    var currentBeat: int
    /** Whether an audio context exists (`audioContextRef.current`). */
    var hasContext: bool
    var nextNoteTime: real
    /** `barCountRef` and `beatCountRef`. */
    var barCount: int
    var beatCount: int
    /** Whether the scheduler's re-arming timeout is pending (`timerIDRef`). */
    var timerPending: bool
    /** Every click handed to the audio clock and to the visual timeouts, in order. */
    var events: seq<Event>

    /**
     * The tempo anchor: from `events[anchorIndex]` on, every click and the next
     * one lie on the grid `anchorTime + k * anchorSpb`. It is set by `Start` and
     * moved only when a pass runs at a different tempo.
     */
    ghost var anchorTime: real
    ghost var anchorSpb: real
    ghost var anchorIndex: nat

    ghost predicate Valid()
      reads this
    {
      && barCount >= 1 && beatCount >= 1
      && anchorIndex <= |events|
      && nextNoteTime == ClickTime(anchorTime, anchorSpb, |events| - anchorIndex)
      && OnGrid(events, anchorIndex, anchorTime, anchorSpb)
    }

    function Counters(): Cursor
      reads this
    {
      Cursor(barCount, beatCount)
    }

    constructor ()
      ensures Valid()
      ensures !isPlaying && !hasContext && !timerPending && events == []
      ensures currentBar == 1 && currentBeat == 1 && barCount == 1 && beatCount == 1
      ensures nextNoteTime == 0.0
    {
      isPlaying := false;
      currentBar, currentBeat := 1, 1;
      hasContext := false;
      nextNoteTime := 0.0;
      barCount, beatCount := 1, 1;
      timerPending := false;
      events := [];
      anchorTime, anchorSpb, anchorIndex := 0.0, 0.0, 0;
    }

    /**
     * The lookahead loop of the scheduler pass: it emits exactly the clicks
     * `k = 0, 1, ...` whose times `t0 + k * 60/bpm` fall before `now + 0.1`,
     * each with the cursor value before its advance, and leaves the next-note
     * time at or after `now + 0.1`. It ends because `bpm > 0`.
     */
    method ScheduleAhead(now: real, bpm: int, beatsPerBar: int, muted: bool) returns (pass: seq<Event>)
      requires bpm > 0 && barCount >= 1 && beatCount >= 1
      modifies this`nextNoteTime, this`barCount, this`beatCount
      ensures barCount >= old(barCount) && barCount >= 1 && beatCount >= 1
      ensures var spb := SecondsPerBeat(bpm);
        && (forall k :: 0 <= k < |pass| ==> ClickTime(old(nextNoteTime), spb, k) < now + ScheduleAheadTime)
        && nextNoteTime == ClickTime(old(nextNoteTime), spb, |pass|)
        && nextNoteTime >= now + ScheduleAheadTime
        && PassEvents(pass, old(nextNoteTime), spb, old(Counters()), beatsPerBar, muted, now)
        && Counters() == AdvanceN(old(Counters()), beatsPerBar, |pass|)
    {
      var spb := SecondsPerBeat(bpm);
      var t0, c0 := nextNoteTime, Counters();
      ghost var bound := BeatsToCover(now + ScheduleAheadTime - t0, bpm);
      pass := [];
      while nextNoteTime < now + ScheduleAheadTime
        invariant nextNoteTime == ClickTime(t0, spb, |pass|)
        invariant forall k :: 0 <= k < |pass| ==> ClickTime(t0, spb, k) < now + ScheduleAheadTime
        invariant PassEvents(pass, t0, spb, c0, beatsPerBar, muted, now)
        invariant Counters() == AdvanceN(c0, beatsPerBar, |pass|)
        invariant barCount >= c0.bar && barCount >= 1 && beatCount >= 1
        invariant |pass| <= bound
        decreases bound - |pass|
      {
        BeforeCover(t0, spb, |pass|, bound);
        PassEventsSnoc(pass, t0, spb, c0, beatsPerBar, muted, now);
        pass := pass + [NoteEvent(nextNoteTime, Counters(), muted, now)];
        nextNoteTime := nextNoteTime + spb;
        var next := Advance(Counters(), beatsPerBar);
        barCount, beatCount := next.bar, next.beat;
      }
    }

    /**
     * One scheduler pass at audio-clock time `now`: the lookahead loop's
     * clicks are handed on (appended to `events`) and the timer is re-armed.
     * Without an audio context it does nothing.
     */
    method Scheduler(now: real, bpm: int, beatsPerBar: int, muted: bool) returns (ghost emitted: seq<Event>)
      requires Valid() && bpm > 0
      modifies this
      ensures Valid()
      ensures isPlaying == old(isPlaying) && hasContext == old(hasContext)
      ensures currentBar == old(currentBar) && currentBeat == old(currentBeat)
      ensures events == old(events) + emitted
      ensures !old(hasContext) ==>
        emitted == [] && nextNoteTime == old(nextNoteTime) &&
        Counters() == old(Counters()) && timerPending == old(timerPending)
      ensures old(hasContext) ==>
        timerPending &&
        IsPass(old(nextNoteTime), old(Counters()), emitted, nextNoteTime, Counters(), now, bpm, beatsPerBar, muted)
      ensures barCount >= old(barCount)
      ensures old(anchorSpb) == SecondsPerBeat(bpm) ==>
        anchorTime == old(anchorTime) && anchorIndex == old(anchorIndex) && anchorSpb == old(anchorSpb)
      ensures old(hasContext) ==> anchorSpb == SecondsPerBeat(bpm)
      ensures old(hasContext) && old(anchorSpb) != SecondsPerBeat(bpm) ==>
        anchorTime == old(nextNoteTime) && anchorIndex == |old(events)|
    {
      if !hasContext {
        return [];
      }
      var spb := SecondsPerBeat(bpm);
      if anchorSpb != spb {
        anchorTime, anchorSpb, anchorIndex := nextNoteTime, spb, |events|;
      }
      ghost var t0, c0, es0 := nextNoteTime, Counters(), events;
      var pass := ScheduleAhead(now, bpm, beatsPerBar, muted);
      assert PassEvents(pass, t0, spb, c0, beatsPerBar, muted, now);
      GridExtends(es0, anchorIndex, anchorTime, spb, pass, c0, beatsPerBar, muted, now);
      events := events + pass;
      emitted := pass;
      timerPending := true;
    }

    /**
     * `start` after `unlockAudioContext` has run: a no-op when no audio context
     * could be created or when already playing; otherwise the first click is
     * put `0.1` s after the audio clock, the counters are kept, playing is set
     * and one scheduler pass runs.
     */
    method Start(now: real, contextAvailable: bool, bpm: int, beatsPerBar: int, muted: bool)
      requires Valid() && bpm > 0
      modifies this
      ensures Valid()
      ensures hasContext == (old(hasContext) || contextAvailable)
      ensures !hasContext || old(isPlaying) ==>
        isPlaying == old(isPlaying) && events == old(events) && nextNoteTime == old(nextNoteTime) &&
        Counters() == old(Counters()) && timerPending == old(timerPending)
      ensures hasContext && !old(isPlaying) ==>
        && isPlaying && timerPending
        && Counters() == old(Counters())
        && nextNoteTime == now + StartLead
        && events == old(events)
        && anchorTime == now + StartLead && anchorSpb == SecondsPerBeat(bpm) && anchorIndex == |events|
      ensures currentBar == old(currentBar) && currentBeat == old(currentBeat)
    {
      if !hasContext {
        hasContext := contextAvailable;
      }
      if !hasContext || isPlaying {
        return;
      }
      nextNoteTime := now + StartLead;
      anchorTime, anchorSpb, anchorIndex := nextNoteTime, 0.0, |events|;
      isPlaying := true;
      ghost var emitted := Scheduler(now, bpm, beatsPerBar, muted);
      // the first click lies beyond the lookahead window, so the pass is empty
      assert ClickTime(now + StartLead, SecondsPerBeat(bpm), 0) >= now + ScheduleAheadTime;
    }

    /**
     * The re-arming timeout firing at audio-clock time `now`: the pending
     * timer runs one scheduler pass (which arms the next one).
     */
    method TimerFires(now: real, bpm: int, beatsPerBar: int, muted: bool)
      requires Valid() && bpm > 0
      modifies this
      ensures Valid()
      ensures isPlaying == old(isPlaying) && hasContext == old(hasContext)
      ensures currentBar == old(currentBar) && currentBeat == old(currentBeat)
      ensures |events| >= |old(events)| && events[..|old(events)|] == old(events)
      ensures !old(timerPending) || !hasContext ==>
        events == old(events) && nextNoteTime == old(nextNoteTime) &&
        Counters() == old(Counters()) && !timerPending
      ensures old(timerPending) && hasContext ==>
        timerPending &&
        IsPass(old(nextNoteTime), old(Counters()), events[|old(events)|..], nextNoteTime, Counters(),
               now, bpm, beatsPerBar, muted)
      ensures old(anchorSpb) == SecondsPerBeat(bpm) ==>
        anchorTime == old(anchorTime) && anchorIndex == old(anchorIndex) && anchorSpb == old(anchorSpb)
    {
      if timerPending {
        timerPending := false;
        ghost var emitted := Scheduler(now, bpm, beatsPerBar, muted);
        assert events[|old(events)|..] == emitted;
      }
    }

    /**
     * The effect that re-runs the scheduler when tempo, bar length or mute
     * change while playing: the pending timer is cleared and a pass runs at once.
     */
    method SettingsChanged(now: real, bpm: int, beatsPerBar: int, muted: bool)
      requires Valid() && bpm > 0
      modifies this
      ensures Valid()
      ensures isPlaying == old(isPlaying) && hasContext == old(hasContext)
      ensures currentBar == old(currentBar) && currentBeat == old(currentBeat)
      ensures |events| >= |old(events)| && events[..|old(events)|] == old(events)
      ensures !isPlaying ==>
        events == old(events) && nextNoteTime == old(nextNoteTime) &&
        Counters() == old(Counters()) && timerPending == old(timerPending)
      ensures isPlaying && !hasContext ==>
        events == old(events) && nextNoteTime == old(nextNoteTime) &&
        Counters() == old(Counters()) && !timerPending
      ensures isPlaying && hasContext ==>
        timerPending &&
        IsPass(old(nextNoteTime), old(Counters()), events[|old(events)|..], nextNoteTime, Counters(),
               now, bpm, beatsPerBar, muted)
      ensures old(anchorSpb) == SecondsPerBeat(bpm) ==>
        anchorTime == old(anchorTime) && anchorIndex == old(anchorIndex) && anchorSpb == old(anchorSpb)
    {
      if isPlaying {
        timerPending := false;
        ghost var emitted := Scheduler(now, bpm, beatsPerBar, muted);
        assert events[|old(events)|..] == emitted;
      }
    }

    /** `stop`: playing ends and the timer is cleared; the counters and the display are kept. */
    method Stop()
      requires Valid()
      modifies this
      ensures Valid()
      ensures !isPlaying && !timerPending
      ensures Counters() == old(Counters()) && events == old(events)
      ensures currentBar == old(currentBar) && currentBeat == old(currentBeat)
      ensures nextNoteTime == old(nextNoteTime) && hasContext == old(hasContext)
    {
      isPlaying := false;
      timerPending := false;
    }

    /** `reset`: stops, then puts both the displayed and the internal cursor at bar 1 beat 1. */
    method Reset()
      requires Valid()
      modifies this
      ensures Valid()
      ensures !isPlaying && !timerPending
      ensures Counters() == Cursor(1, 1) && currentBar == 1 && currentBeat == 1
      ensures events == old(events) && nextNoteTime == old(nextNoteTime) && hasContext == old(hasContext)
    {
      Stop();
      currentBar, currentBeat := 1, 1;
      barCount, beatCount := 1, 1;
    }

    /**
     * A click's visual timeout firing (`drawVisuals`): the display takes the
     * click's own bar and beat. Timeouts already queued are not cancelled by
     * `stop` or `reset`, so this may run after them.
     */
    method DrawVisuals(e: Event)
      requires Valid()
      modifies this
      ensures Valid()
      ensures currentBar == e.bar && currentBeat == e.beat
      ensures isPlaying == old(isPlaying) && Counters() == old(Counters()) && events == old(events)
      ensures nextNoteTime == old(nextNoteTime) && timerPending == old(timerPending)
    {
      currentBeat := e.beat;
      currentBar := e.bar;
    }
  }

  /**
   * Starting at audio-clock time `now0` and letting the re-arming timer fire
   * twice at one tempo: every click handed out since the start lies on the
   * grid `now0 + 0.1 + k * 60/bpm`, and the next click continues it past the
   * last pass's window.
   */
  method StartThenTwoPasses(m: Metronome, now0: real, now1: real, now2: real,
                            bpm: int, beatsPerBar: int, muted: bool)
    requires m.Valid() && bpm > 0 && !m.isPlaying
    modifies m
    ensures m.Valid() && m.isPlaying && m.timerPending
    ensures var n0, spb := |old(m.events)|, SecondsPerBeat(bpm);
      && |m.events| >= n0 && m.events[..n0] == old(m.events)
      && (forall k :: n0 <= k < |m.events| ==> m.events[k].time == ClickTime(now0 + StartLead, spb, k - n0))
      && m.nextNoteTime == ClickTime(now0 + StartLead, spb, |m.events| - n0)
      && m.nextNoteTime >= now2 + ScheduleAheadTime
  {
    ghost var es0 := m.events;
    m.Start(now0, true, bpm, beatsPerBar, muted);
    m.TimerFires(now1, bpm, beatsPerBar, muted);
    m.TimerFires(now2, bpm, beatsPerBar, muted);
    assert m.events[..|es0|] == es0;
  }
}
