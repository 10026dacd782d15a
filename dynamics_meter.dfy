/**
 * The state of `components/DynamicsMeter.tsx`: the thresholds, the edit
 * mode, the visually smoothed level and the two-step auto-calibration that
 * records a quiet and a loud passage and spreads the eight thresholds
 * evenly between their robust levels. The level and the silence flag come
 * from the volume hook and are passed in; each timer callback is a method
 * that the host calls when the timer fires.
 */
module DynamicsMeter {
  import JsMath
  import RobustStats
  import opened Wrappers
  import opened DynamicsMarking

  /** The level the smoothing moves towards while the input is silent. */
  const SilentTarget: real := -100.0
  /** Fraction of the remaining distance covered per frame when the level rises. */
  const AttackFactor: real := 0.2
  /** Fraction covered per frame when the level falls. */
  const DecayFactor: real := 0.05
  /** Distances below this snap straight to the target. */
  const SnapDistance: real := 0.1
  /** The calibrated loud level must exceed the quiet one by more than this. */
  const MinSpan: real := 10.0
  /** The span used when the recorded one is too small. */
  const FallbackSpan: real := 20.0

  /** `CalibrationStep` */
  datatype Step = Idle | MinIntro | MinRecording | MaxIntro | MaxRecording | Finished

  /** One frame of the smoothing loop, from the previous level towards `target`. */
  function SmoothStep(prev: real, target: real): real
  {
    var diff := target - prev;
    var factor := if diff > 0.0 then AttackFactor else DecayFactor;
    if JsMath.Abs(diff) < SnapDistance then target else prev + diff * factor
  }

  /**
   * A frame never overshoots: the new level lies between the previous one
   * and the target, and unless it snaps it closes 20% of the gap on the way
   * up and 5% on the way down.
   */
  lemma SmoothStepApproaches(prev: real, target: real)
    ensures JsMath.Min(prev, target) <= SmoothStep(prev, target) <= JsMath.Max(prev, target)
    ensures JsMath.Abs(target - prev) < SnapDistance ==> SmoothStep(prev, target) == target
    ensures JsMath.Abs(target - prev) >= SnapDistance && target > prev ==>
      target - SmoothStep(prev, target) == 0.8 * (target - prev)
    ensures JsMath.Abs(target - prev) >= SnapDistance && target < prev ==>
      SmoothStep(prev, target) - target == 0.95 * (prev - target)
  {
  }

  /** `n` frames of smoothing towards a fixed target. */
  function SmoothFrames(prev: real, target: real, n: nat): real
    decreases n
  {
    if n == 0 then prev else SmoothFrames(SmoothStep(prev, target), target, n - 1)
  }

  /**
   * A fixed target is reached exactly: each frame that does not snap closes
   * at least 0.005 dB, so `n` frames suffice once `0.005 * n` covers the
   * distance.
   */
  lemma {:induction false} SmoothReachesTarget(prev: real, target: real, n: nat)
    requires JsMath.Abs(target - prev) <= 0.005 * n as real
    ensures SmoothFrames(prev, target, n) == target
    decreases n
  {
    if n > 0 {
      var next := SmoothStep(prev, target);
      SmoothStepApproaches(prev, target);
      assert JsMath.Abs(target - next) <= 0.005 * (n - 1) as real;
      SmoothReachesTarget(next, target, n - 1);
    }
  }

  /** The quiet and loud levels with the loud one pushed up when the span is 10 dB or less. */
  function CalibratedRange(calcMin: real, calcMax: real): (r: (real, real))
    ensures r.0 == calcMin && r.1 > calcMin + MinSpan
    ensures calcMax > calcMin + MinSpan ==> r.1 == calcMax
    ensures calcMax <= calcMin + MinSpan ==> r.1 == calcMin + FallbackSpan
  {
    if calcMax <= calcMin + MinSpan then (calcMin, calcMin + FallbackSpan) else (calcMin, calcMax)
  }

  /** The threshold of the key at place `i` of `DYNAMIC_ORDER`: `lo + i * (hi - lo) / 7`. */
  function SpreadAt(lo: real, hi: real, i: nat): real
  {
    lo + ((hi - lo) / 7.0) * i as real
  }

  /** The thresholds spread linearly from `lo` (ppp) to `hi` (fff). */
  function Spread(lo: real, hi: real): (t: Thresholds)
  {
    map[PPP := SpreadAt(lo, hi, 0), PP := SpreadAt(lo, hi, 1), P := SpreadAt(lo, hi, 2),
        MP := SpreadAt(lo, hi, 3), MF := SpreadAt(lo, hi, 4), F := SpreadAt(lo, hi, 5),
        FF := SpreadAt(lo, hi, 6), FFF := SpreadAt(lo, hi, 7)]
  }

  /** Every key has its step in the spread: the key at place `i` of `DYNAMIC_ORDER` gets the `i`-th. */
  lemma SpreadAtRank(lo: real, hi: real, k: DynKey)
    ensures k in Spread(lo, hi) && Spread(lo, hi)[k] == SpreadAt(lo, hi, Rank(k))
  {
    match k
    case PPP => case PP => case P => case MP =>
    case MF => case F => case FF => case FFF =>
  }

  lemma SpreadComplete(lo: real, hi: real)
    ensures Complete(Spread(lo, hi))
  {
    forall k: DynKey ensures k in Spread(lo, hi) {
      SpreadAtRank(lo, hi, k);
    }
  }

  /** Steps of a positive size rise with their index. */
  lemma StepsRise(step: real, i: nat, j: nat)
    requires step > 0.0 && i < j
    ensures step * i as real < step * j as real
  {
    var d := (j - i) as real;
    assert step * j as real == step * i as real + step * d;
    assert step * d > 0.0;
  }

  /** The key at place `i` of `DYNAMIC_ORDER` sits `i` sevenths of the span above `lo`. */
  lemma SpreadSteps(lo: real, hi: real)
    ensures Complete(Spread(lo, hi))
    ensures forall i :: 0 <= i < |Order| ==> Spread(lo, hi)[Order[i]] == lo + (hi - lo) / 7.0 * i as real
  {
    SpreadComplete(lo, hi);
    forall i | 0 <= i < |Order| ensures Spread(lo, hi)[Order[i]] == SpreadAt(lo, hi, i) {
      SpreadAtRank(lo, hi, Order[i]);
      RankOfOrder(i);
    }
  }

  /**
   * The spread starts at `lo`, ends at `hi`, places every key one seventh
   * of the span above the previous one, and rises strictly when `hi > lo`.
   */
  lemma SpreadShape(lo: real, hi: real)
    requires hi > lo
    ensures Complete(Spread(lo, hi))
    ensures var t := Spread(lo, hi);
      && t[PPP] == lo && t[FFF] == hi
      && (forall i :: 0 <= i < |Order| ==> t[Order[i]] == lo + (hi - lo) / 7.0 * i as real)
      && Increasing(t)
  {
    SpreadSteps(lo, hi);
    var t := Spread(lo, hi);
    var step := (hi - lo) / 7.0;
    assert t[PPP] == t[Order[0]] && t[FFF] == t[Order[7]];
    forall i, j | 0 <= i < j < |Order| ensures t[Order[i]] < t[Order[j]] {
      StepsRise(step, i, j);
    }
  }

  /** The thresholds `finishAutoCalibration` installs for two recordings. */
  function Calibrated(tempMin: seq<real>, tempMax: seq<real>): (t: Thresholds)
    ensures Complete(t)
  {
    var r := CalibratedRange(RobustStats.RobustMin(tempMin), RobustStats.RobustMax(tempMax));
    SpreadComplete(r.0, r.1);
    Spread(r.0, r.1)
  }

  /**
   * Calibration always yields strictly rising thresholds: ppp is the quiet
   * level and fff lies more than 10 dB above it.
   */
  lemma CalibratedIncreasing(tempMin: seq<real>, tempMax: seq<real>)
    ensures var t := Calibrated(tempMin, tempMax);
      && Increasing(t)
      && t[PPP] == RobustStats.RobustMin(tempMin)
      && t[FFF] > t[PPP] + MinSpan
  {
    var r := CalibratedRange(RobustStats.RobustMin(tempMin), RobustStats.RobustMax(tempMax));
    SpreadShape(r.0, r.1);
  }

  /**
   * The finishing timer's view of the loud take is always empty, so its
   * fff is the fallback -5 dB, or ppp + 20 when that is not 10 dB above
   * ppp: whatever was played during the loud passage is ignored.
   */
  lemma EmptyLoudTakeFff(tempMin: seq<real>)
    ensures var ppp := RobustStats.RobustMin(tempMin);
      Calibrated(tempMin, [])[FFF] == if -5.0 > ppp + MinSpan then -5.0 else ppp + FallbackSpan
  {
    var r := CalibratedRange(RobustStats.RobustMin(tempMin), RobustStats.RobustMax([]));
    SpreadShape(r.0, r.1);
  }

  /**
   * Ten quiet levels at -50 dB and ten loud ones at -10 dB: calibrating from
   * both recordings puts fff at -10 dB, while the empty loud take the
   * finishing timer sees puts it at -5 dB.
   */
  lemma StaleLoudTakeExample(quiet: seq<real>, loud: seq<real>)
    requires |quiet| == 10 && forall x :: x in quiet ==> x == -50.0
    requires |loud| == 10 && forall x :: x in loud ==> x == -10.0
    ensures Calibrated(quiet, loud)[FFF] == -10.0
    ensures Calibrated(quiet, [])[FFF] == -5.0
  {
    RobustStats.RobustWithinSamples(quiet, -50.0, -50.0);
    RobustStats.RobustWithinSamples(loud, -10.0, -10.0);
    var r := CalibratedRange(RobustStats.RobustMin(quiet), RobustStats.RobustMax(loud));
    SpreadShape(r.0, r.1);
    EmptyLoudTakeFff(quiet);
  }

  /** `barPercentage`, with `None` for the `NaN` of `0 / 0` when ppp and fff coincide. */
  function Bar(t: Thresholds, smoothedDb: real): (r: Option<real>)
    requires Complete(t)
    ensures r.None? <==> t[FFF] == t[PPP] && smoothedDb == t[PPP]
    ensures r.Some? ==> 0.0 <= r.value <= 100.0
    ensures t[FFF] != t[PPP] ==> r == Some(BarPercentage(t, smoothedDb))
    ensures t[FFF] == t[PPP] && smoothedDb > t[PPP] ==> r == Some(100.0)
    ensures t[FFF] == t[PPP] && smoothedDb < t[PPP] ==> r == Some(0.0)
  {
    if t[FFF] != t[PPP] then Some(BarPercentage(t, smoothedDb))
    else if smoothedDb > t[PPP] then Some(100.0)   // +Infinity, clamped
    else if smoothedDb < t[PPP] then Some(0.0)     // -Infinity, clamped
    else None
  }

  /**
   * The `DYNAMIC_ORDER.forEach` of `finishAutoCalibration`: starting from a
   * copy of the current thresholds, the key at place `i` is set to
   * `lo + stepSize * i`, which overwrites every key.
   */
  method FillSpread(base: Thresholds, lo: real, hi: real) returns (t: Thresholds)
    requires Complete(base)
    ensures t == Spread(lo, hi)
  {
    var stepSize := (hi - lo) / 7.0;
    t := base;
    var i := 0;
    while i < |Order|
      invariant 0 <= i <= |Order|
      invariant Complete(t)
      invariant forall k :: Rank(k) < i ==> t[k] == SpreadAt(lo, hi, Rank(k))
    {
      var key := Order[i];
      RankOfOrder(i);
      assert Rank(key) == i;
      t := t[key := lo + stepSize * i as real];
      i := i + 1;
    }
    SpreadComplete(lo, hi);
    forall k: DynKey ensures t[k] == Spread(lo, hi)[k] {
      SpreadAtRank(lo, hi, k);
    }
    assert t.Keys == Spread(lo, hi).Keys;
  }

  class Meter {
    var thresholds: Thresholds
    var isEditing: bool
    var smoothedDb: real
    var step: Step
    /** Levels recorded during the quiet passage. */
    var tempMin: seq<real>
    /** Levels recorded during the loud passage. */
    var tempMax: seq<real>
    /**
     * The two recordings as the render that armed the finishing timer saw
     * them: its `finishAutoCalibration` closes over those values.
     */
    var closureMin: seq<real>
    var closureMax: seq<real>

    ghost predicate Valid()
      reads this
    {
      Complete(thresholds)
    }

    constructor()
      ensures Valid()
      ensures thresholds == Defaults && !isEditing && smoothedDb == SilentTarget
      ensures step == Idle && tempMin == [] && tempMax == []
    {
      DefaultsIncreasing();
      thresholds, isEditing, smoothedDb := Defaults, false, SilentTarget;
      step, tempMin, tempMax := Idle, [], [];
      closureMin, closureMax := [], [];
    }

    /** One frame of `updateSmooth`: silence pulls the level towards -100 dB. */
    method UpdateSmooth(db: real, isSilent: bool)
      modifies this
      ensures smoothedDb == SmoothStep(old(smoothedDb), if isSilent then SilentTarget else db)
      ensures thresholds == old(thresholds) && isEditing == old(isEditing) && step == old(step)
      ensures tempMin == old(tempMin) && tempMax == old(tempMax)
      ensures closureMin == old(closureMin) && closureMax == old(closureMax)
    {
      var target := if isSilent then SilentTarget else db;
      var diff := target - smoothedDb;
      var factor := if diff > 0.0 then AttackFactor else DecayFactor;
      if JsMath.Abs(diff) < SnapDistance {
        smoothedDb := target;
      } else {
        smoothedDb := smoothedDb + diff * factor;
      }
    }

    /** The recording effect: a non-silent level is kept while a passage is recorded. */
    method RecordFrame(db: real, isSilent: bool)
      modifies this
      ensures tempMin == if step == MinRecording && !isSilent then old(tempMin) + [db] else old(tempMin)
      ensures tempMax == if step == MaxRecording && !isSilent then old(tempMax) + [db] else old(tempMax)
      ensures thresholds == old(thresholds) && isEditing == old(isEditing)
      ensures smoothedDb == old(smoothedDb) && step == old(step)
      ensures closureMin == old(closureMin) && closureMax == old(closureMax)
    {
      if step == MinRecording && !isSilent {
        tempMin := tempMin + [db];
      }
      if step == MaxRecording && !isSilent {
        tempMax := tempMax + [db];
      }
    }

    /** `startCalibration` */
    method StartCalibration()
      modifies this
      ensures !isEditing && step == MinIntro && tempMin == [] && tempMax == []
      ensures thresholds == old(thresholds) && smoothedDb == old(smoothedDb)
      ensures closureMin == old(closureMin) && closureMax == old(closureMax)
    {
      isEditing, step, tempMin, tempMax := false, MinIntro, [], [];
    }

    /** `startRecordingMin`; the host calls `MinTimerFires` three seconds later. */
    method StartRecordingMin()
      modifies this
      ensures step == MinRecording && tempMin == []
      ensures tempMax == old(tempMax) && thresholds == old(thresholds)
      ensures isEditing == old(isEditing) && smoothedDb == old(smoothedDb)
      ensures closureMin == old(closureMin) && closureMax == old(closureMax)
    {
      step, tempMin := MinRecording, [];
    }

    /** The three-second timer of `startRecordingMin`. */
    method MinTimerFires()
      modifies this
      ensures step == MaxIntro
      ensures tempMin == old(tempMin) && tempMax == old(tempMax) && thresholds == old(thresholds)
      ensures isEditing == old(isEditing) && smoothedDb == old(smoothedDb)
      ensures closureMin == old(closureMin) && closureMax == old(closureMax)
    {
      step := MaxIntro;
    }

    /**
     * `startRecordingMax`; the host calls `FinishTimerFires` three seconds
     * later. The timer's callback is the `finishAutoCalibration` of the
     * render in which the button was pressed, so it keeps the recordings as
     * they were before this call.
     */
    method StartRecordingMax()
      modifies this
      ensures step == MaxRecording && tempMax == []
      ensures closureMin == old(tempMin) && closureMax == old(tempMax)
      ensures tempMin == old(tempMin) && thresholds == old(thresholds)
      ensures isEditing == old(isEditing) && smoothedDb == old(smoothedDb)
    {
      closureMin, closureMax := tempMin, tempMax;
      step, tempMax := MaxRecording, [];
    }

    /**
     * The body of `finishAutoCalibration` on the recordings it sees: their
     * robust levels set ppp and fff, the keys in between are spaced evenly,
     * and the step becomes `finished`.
     */
    method Calibrate(quiet: seq<real>, loud: seq<real>)
      requires Valid()
      modifies this`thresholds, this`step
      ensures Valid() && Increasing(thresholds)
      ensures thresholds == Calibrated(quiet, loud)
      ensures step == Finished
    {
      var calcMin := RobustStats.RobustMin(quiet);
      var calcMax := RobustStats.RobustMax(loud);
      if calcMax <= calcMin + MinSpan {
        calcMax := calcMin + FallbackSpan;
      }
      var newThresholds := FillSpread(thresholds, calcMin, calcMax);
      assert CalibratedRange(RobustStats.RobustMin(quiet), RobustStats.RobustMax(loud)) == (calcMin, calcMax);
      CalibratedIncreasing(quiet, loud);
      thresholds := newThresholds;
      step := Finished;
    }

    /**
     * The three-second timer of `startRecordingMax`, as written: it runs the
     * stale `finishAutoCalibration`, which calibrates from the recordings of
     * the render that armed it. The loud take recorded meanwhile is not used.
     */
    method FinishTimerFires()
      requires Valid()
      modifies this
      ensures Valid() && Increasing(thresholds)
      ensures thresholds == Calibrated(closureMin, closureMax)
      ensures step == Finished
      ensures tempMin == old(tempMin) && tempMax == old(tempMax)
      ensures closureMin == old(closureMin) && closureMax == old(closureMax)
      ensures isEditing == old(isEditing) && smoothedDb == old(smoothedDb)
    {
      Calibrate(closureMin, closureMax);
    }

    /**
     * `finishAutoCalibration` as evidently intended: it calibrates from the
     * current recordings, the loud take included; the host calls
     * `IdleTimerFires` 1.5 seconds later.
     */
    method FinishAutoCalibration()
      requires Valid()
      modifies this
      ensures Valid() && Increasing(thresholds)
      ensures thresholds == Calibrated(old(tempMin), old(tempMax))
      ensures step == Finished
      ensures tempMin == old(tempMin) && tempMax == old(tempMax)
      ensures closureMin == old(closureMin) && closureMax == old(closureMax)
      ensures isEditing == old(isEditing) && smoothedDb == old(smoothedDb)
    {
      Calibrate(tempMin, tempMax);
    }

    /** The 1.5-second timer of `finishAutoCalibration`. */
    method IdleTimerFires()
      modifies this
      ensures step == Idle
      ensures tempMin == old(tempMin) && tempMax == old(tempMax) && thresholds == old(thresholds)
      ensures isEditing == old(isEditing) && smoothedDb == old(smoothedDb)
      ensures closureMin == old(closureMin) && closureMax == old(closureMax)
    {
      step := Idle;
    }

    /** `resetCalibration`: the default thresholds and the idle step; the recordings are kept. */
    method ResetCalibration()
      modifies this
      ensures Valid() && thresholds == Defaults && step == Idle
      ensures tempMin == old(tempMin) && tempMax == old(tempMax)
      ensures isEditing == old(isEditing) && smoothedDb == old(smoothedDb)
      ensures closureMin == old(closureMin) && closureMax == old(closureMax)
    {
      DefaultsIncreasing();
      thresholds := Defaults;
      step := Idle;
    }

    /** `handleThresholdChange`: one key's threshold is replaced, the others are kept. */
    method HandleThresholdChange(key: DynKey, val: real)
      requires Valid()
      modifies this
      ensures Valid() && thresholds == old(thresholds)[key := val]
      ensures forall k :: k != key ==> thresholds[k] == old(thresholds)[k]
      ensures thresholds[key] == val
      ensures step == old(step) && tempMin == old(tempMin) && tempMax == old(tempMax)
      ensures isEditing == old(isEditing) && smoothedDb == old(smoothedDb)
      ensures closureMin == old(closureMin) && closureMax == old(closureMax)
    {
      thresholds := thresholds[key := val];
    }

    /** `captureCurrentAs`: unless the input is silent, the key takes the rounded smoothed level. */
    method CaptureCurrentAs(key: DynKey, isSilent: bool)
      requires Valid()
      modifies this
      ensures Valid()
      ensures thresholds == if isSilent then old(thresholds)
        else old(thresholds)[key := JsMath.Round(smoothedDb) as real]
      ensures step == old(step) && tempMin == old(tempMin) && tempMax == old(tempMax)
      ensures isEditing == old(isEditing) && smoothedDb == old(smoothedDb)
      ensures closureMin == old(closureMin) && closureMax == old(closureMax)
    {
      if !isSilent {
        HandleThresholdChange(key, JsMath.Round(smoothedDb) as real);
      }
    }

    /** The settings button: edit mode is switched on or off. */
    method ToggleEditing()
      modifies this
      ensures isEditing == !old(isEditing)
      ensures thresholds == old(thresholds) && step == old(step) && smoothedDb == old(smoothedDb)
      ensures tempMin == old(tempMin) && tempMax == old(tempMax)
      ensures closureMin == old(closureMin) && closureMax == old(closureMax)
    {
      isEditing := !isEditing;
    }

    /** "Done Editing" */
    method CloseEditing()
      modifies this
      ensures !isEditing
      ensures thresholds == old(thresholds) && step == old(step) && smoothedDb == old(smoothedDb)
      ensures tempMin == old(tempMin) && tempMax == old(tempMax)
      ensures closureMin == old(closureMin) && closureMax == old(closureMax)
    {
      isEditing := false;
    }

    /**
     * `displayDynamic`: silent input while idle and not editing shows the
     * silent marking; otherwise the marking of the smoothed level.
     */
    method DisplayDynamic(isSilent: bool) returns (m: Marking)
      requires Valid()
      ensures isSilent && step == Idle && !isEditing ==> m == Silent
      ensures !(isSilent && step == Idle && !isEditing) ==> m == Classify(thresholds, smoothedDb)
    {
      if isSilent && step == Idle && !isEditing {
        m := Silent;
      } else {
        m := GetDynamicMarking(thresholds, smoothedDb);
      }
    }
  }

  /**
   * The wizard run as written: start, a quiet passage of non-silent levels,
   * the three-second timer, a loud passage, and the finishing timer. The
   * thresholds come from the quiet take and an empty loud take, whatever
   * was played loud.
   */
  method CalibrationAsWritten(m: Meter, quiet: seq<real>, loud: seq<real>)
    requires m.Valid()
    modifies m
    ensures m.Valid() && m.step == Finished
    ensures m.tempMin == quiet && m.tempMax == loud
    ensures m.thresholds == Calibrated(quiet, [])
  {
    m.StartCalibration();
    m.StartRecordingMin();
    var i := 0;
    while i < |quiet|
      invariant 0 <= i <= |quiet|
      invariant m.Valid() && m.step == MinRecording && m.tempMin == quiet[..i] && m.tempMax == []
    {
      m.RecordFrame(quiet[i], false);
      assert quiet[..i + 1] == quiet[..i] + [quiet[i]];
      i := i + 1;
    }
    assert quiet[..|quiet|] == quiet;
    m.MinTimerFires();
    m.StartRecordingMax();
    i := 0;
    while i < |loud|
      invariant 0 <= i <= |loud|
      invariant m.Valid() && m.step == MaxRecording && m.tempMin == quiet && m.tempMax == loud[..i]
      invariant m.closureMin == quiet && m.closureMax == []
    {
      m.RecordFrame(loud[i], false);
      assert loud[..i + 1] == loud[..i] + [loud[i]];
      i := i + 1;
    }
    assert loud[..|loud|] == loud;
    m.FinishTimerFires();
  }
}
