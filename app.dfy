/**
 * The configuration state of `App.tsx`: the tempo, the selected time
 * signature, the bar-length overrides set by tap tempo, and the tap count
 * that decides whether the display shows taps or measures. The transport
 * buttons drive the metronome engine.
 */
module App {
  import opened Wrappers
  import JsMath
  import opened Constants
  import Metronome

  /** `Math.min(Math.max(newBpm, MIN_BPM), MAX_BPM)` */
  function ClampBpm(newBpm: int): (r: int)
    ensures MIN_BPM <= r <= MAX_BPM
    ensures MIN_BPM <= newBpm <= MAX_BPM ==> r == newBpm
    ensures newBpm < MIN_BPM ==> r == MIN_BPM
    ensures newBpm > MAX_BPM ==> r == MAX_BPM
  {
    JsMath.ClampInt(newBpm, MIN_BPM, MAX_BPM)
  }

  /** Clamping twice is clamping once. */
  lemma ClampBpmIdempotent(x: int)
    ensures ClampBpm(ClampBpm(x)) == ClampBpm(x)
  {
  }

  /** `if (bpm)`: a missing tempo and a tempo of 0 are both falsy. */
  predicate Truthy(v: Option<int>)
  {
    v.Some? && v.value != 0
  }

  class App {
    var bpm: int
    var timeSigKey: TimeSignature
    var customBeats: Option<int>
    var customVal: Option<int>
    var isMuted: bool
    var tapCount: int
    /** The engine of `useMetronome`. */
    const metro: Metronome.Metronome

    ghost predicate Valid()
      reads this, metro
    {
      && MIN_BPM <= bpm <= MAX_BPM
      && (customBeats.Some? ==> customBeats.value >= 1)
      && metro.Valid()
    }

    constructor()
      ensures Valid() && fresh(metro)
      ensures bpm == DEFAULT_BPM && timeSigKey == FourFour
      ensures customBeats.None? && customVal.None? && !isMuted && tapCount == 0
      ensures !metro.isPlaying
    {
      bpm, timeSigKey := DEFAULT_BPM, FourFour;
      customBeats, customVal := None, None;
      isMuted, tapCount := false, 0;
      metro := new Metronome.Metronome();
    }

    /** `beatsPerBar = customBeats ?? SIGNATURE_CONFIGS[timeSigKey].beats`: never below 1. */
    function BeatsPerBar(): (b: int)
      reads this
      requires customBeats.Some? ==> customBeats.value >= 1
      ensures b >= 1
      ensures customBeats.Some? ==> b == customBeats.value
      ensures customBeats.None? ==> b == Config(timeSigKey).beats
    {
      customBeats.GetOr(Config(timeSigKey).beats)
    }

    /** `noteValue = customVal ?? SIGNATURE_CONFIGS[timeSigKey].value` */
    function NoteValue(): (v: int)
      reads this
      ensures customVal.Some? ==> v == customVal.value
      ensures customVal.None? ==> v == Config(timeSigKey).value
    {
      customVal.GetOr(Config(timeSigKey).value)
    }

    /** `isTappingMode`: stopped with taps counted. */
    predicate IsTappingMode()
      reads this, metro
    {
      !metro.isPlaying && tapCount > 0
    }

    /** `handleBpmChange` */
    method HandleBpmChange(newBpm: int)
      requires Valid()
      modifies this
      ensures Valid() && bpm == ClampBpm(newBpm)
      ensures timeSigKey == old(timeSigKey) && customBeats == old(customBeats)
      ensures customVal == old(customVal) && tapCount == old(tapCount) && isMuted == old(isMuted)
    {
      bpm := ClampBpm(newBpm);
    }

    /**
     * `handleTapUpdate`: the count is always shown; a count of one or more
     * becomes the bar length, with quarter notes when no note value was
     * set; a reported tempo is clamped in.
     */
    method HandleTapUpdate(tapBpm: Option<int>, count: int)
      requires Valid()
      modifies this
      ensures Valid() && tapCount == count
      ensures customBeats == if count >= 1 then Some(count) else old(customBeats)
      ensures customVal == if count >= 1 && !Truthy(old(customVal)) then Some(4) else old(customVal)
      ensures bpm == if Truthy(tapBpm) then ClampBpm(tapBpm.value) else old(bpm)
      ensures timeSigKey == old(timeSigKey) && isMuted == old(isMuted)
    {
      tapCount := count;
      if count >= 1 {
        customBeats := Some(count);
        if !Truthy(customVal) {
          customVal := Some(4);
        }
      }
      if Truthy(tapBpm) {
        HandleBpmChange(tapBpm.value);
      }
    }

    /** `handleTimeSigChange`: a new signature clears the overrides and the tap count. */
    method HandleTimeSigChange(ts: TimeSignature)
      requires Valid()
      modifies this
      ensures Valid() && timeSigKey == ts
      ensures customBeats.None? && customVal.None? && tapCount == 0
      ensures BeatsPerBar() == Config(ts).beats && NoteValue() == Config(ts).value
      ensures bpm == old(bpm) && isMuted == old(isMuted)
    {
      timeSigKey := ts;
      customBeats, customVal := None, None;
      tapCount := 0;
    }

    /** `handleStart`: the tap count is cleared and the engine started. */
    method HandleStart(now: real, contextAvailable: bool)
      requires Valid()
      modifies this, metro
      ensures Valid() && tapCount == 0 && !IsTappingMode()
      ensures metro.hasContext == (old(metro.hasContext) || contextAvailable)
      ensures metro.hasContext && !old(metro.isPlaying) ==>
        && metro.isPlaying && !IsTappingMode() && metro.timerPending
        && metro.nextNoteTime == now + Metronome.StartLead
        && metro.Counters() == old(metro.Counters()) && metro.events == old(metro.events)
      ensures !metro.hasContext || old(metro.isPlaying) ==>
        metro.isPlaying == old(metro.isPlaying) && metro.events == old(metro.events) &&
        metro.nextNoteTime == old(metro.nextNoteTime) && metro.Counters() == old(metro.Counters()) &&
        metro.timerPending == old(metro.timerPending)
      ensures metro.currentBar == old(metro.currentBar) && metro.currentBeat == old(metro.currentBeat)
      ensures bpm == old(bpm) && timeSigKey == old(timeSigKey) && isMuted == old(isMuted)
      ensures customBeats == old(customBeats) && customVal == old(customVal)
    {
      tapCount := 0;
      metro.Start(now, contextAvailable, bpm, BeatsPerBar(), isMuted);
    }

    /** `handleReset`: the tap count is cleared and the engine reset to bar 1, beat 1. */
    method HandleReset()
      requires Valid()
      modifies this, metro
      ensures Valid() && tapCount == 0 && !metro.isPlaying && !metro.timerPending
      ensures metro.currentBar == 1 && metro.currentBeat == 1 && metro.Counters() == Metronome.Cursor(1, 1)
      ensures metro.events == old(metro.events) && metro.nextNoteTime == old(metro.nextNoteTime)
      ensures bpm == old(bpm) && timeSigKey == old(timeSigKey) && isMuted == old(isMuted)
      ensures customBeats == old(customBeats) && customVal == old(customVal)
    {
      tapCount := 0;
      metro.Reset();
    }

    /** `handleStop`: the engine stops and the tap count is kept. */
    method HandleStop()
      requires Valid()
      modifies metro
      ensures Valid() && !metro.isPlaying && !metro.timerPending
      ensures IsTappingMode() <==> tapCount > 0
      ensures metro.currentBar == old(metro.currentBar) && metro.currentBeat == old(metro.currentBeat)
      ensures metro.Counters() == old(metro.Counters()) && metro.events == old(metro.events)
      ensures metro.nextNoteTime == old(metro.nextNoteTime) && metro.hasContext == old(metro.hasContext)
    {
      metro.Stop();
    }
  }

  /**
   * Tapping three then four times into a stopped app sets a bar of four
   * quarter notes and shows the tap count; a new signature restores its
   * own bar length.
   */
  method TapThenChangeSignature()
  {
    var app := new App();
    app.HandleTapUpdate(None, 3);
    app.HandleTapUpdate(Some(120), 4);
    assert app.BeatsPerBar() == 4 && app.NoteValue() == 4 && app.bpm == 120;
    assert app.IsTappingMode();
    app.HandleTimeSigChange(SixEight);
    assert app.BeatsPerBar() == 6 && app.NoteValue() == 8 && !app.IsTappingMode();
  }
}
