/**
 * The pitch detector of `hooks/usePitchDetector.ts`: `autoCorrelate` (a
 * silence gate, trimming of the buffer's loud edges, an autocorrelation
 * table, the end of its initial descent, the first highest peak after it and
 * a parabolic refinement of that peak), the integer part of `getNote`, and
 * the frame update of `updatePitch`.
 *
 * `autoCorrelate` returns `sampleRate / T0`; the model returns the period
 * `T0` (in samples) and the frame update divides. Float32 samples are
 * exact reals. The logarithms of `getNote` are replaced by the note number
 * `12 * log2(frequency / a4)`, passed in as a function of the frequency.
 */
module PitchDetector {
  import opened Wrappers
  import JsMath
  import Signal

  /** `thres`: samples quieter than this may start or end the trimmed buffer. */
  const TrimThreshold: real := 0.2
  /** `NOTE_STRINGS` */
  const NoteStrings: seq<string> := ["C", "C#", "D", "D#", "E", "F", "F#", "G", "G#", "A", "A#", "B"]

  /** The outcome of `autoCorrelate`: too quiet (`-1`), or a period `T0` in samples. */
  datatype Detection = Silent | Period(t0: real)

  // ---------------------------------------------------------------- gate

  /** `sqrt(Σ buf[i]² / size) < 0.01`, squared out (see `Signal.GateWithoutRoot`). */
  predicate IsQuiet(buf: seq<real>)
  {
    Signal.SumSq(buf) < 0.0001 * |buf| as real
  }

  // ---------------------------------------------------------------- trim

  /** A sample quiet enough to place a cut at. */
  predicate Low(buf: seq<real>, i: int)
    requires 0 <= i < |buf|
  {
    JsMath.Abs(buf[i]) < TrimThreshold
  }

  /** The first loop's search from index `i` on: the first low sample in the first half, else 0. */
  function StartCutFrom(buf: seq<real>, i: nat): (r: nat)
    ensures r == 0 || (i <= r && 2 * r < |buf|)
    decreases |buf| - i
  {
    if 2 * i >= |buf| then 0
    else if Low(buf, i) then i
    else StartCutFrom(buf, i + 1)
  }

  /** `r1` */
  function StartCut(buf: seq<real>): (r1: nat)
    ensures r1 == 0 || 2 * r1 < |buf|
  {
    StartCutFrom(buf, 0)
  }

  /**
   * The second loop's search from offset `i` on: `size - i` for the first
   * low `buf[size - i]` with `i < size / 2`, else `size - 1`.
   */
  function EndCutFrom(buf: seq<real>, i: nat): (r: int)
    requires i >= 1
    ensures r == |buf| - 1 || (2 * r > |buf| && r <= |buf| - i)
    decreases |buf| - i
  {
    if 2 * i >= |buf| then |buf| - 1
    else if LowFromEnd(buf, i) then |buf| - i
    else EndCutFrom(buf, i + 1)
  }

  /** `r2` */
  function EndCut(buf: seq<real>): (r2: int)
    ensures r2 == |buf| - 1 || (2 * r2 > |buf| && r2 <= |buf| - 1)
  {
    EndCutFrom(buf, 1)
  }

  /** For a buffer of at least two samples the cuts leave a non-empty slice. */
  lemma TrimBounds(buf: seq<real>)
    requires |buf| >= 2
    ensures 0 <= StartCut(buf) < EndCut(buf) <= |buf| - 1
  {
  }

  /** The first loop finds the first low sample of the first half, or leaves `r1` at 0. */
  lemma {:induction false} StartCutFromIsFirst(buf: seq<real>, i: nat)
    ensures var r := StartCutFrom(buf, i);
      if exists k :: i <= k && 2 * k < |buf| && Low(buf, k) then
        i <= r && 2 * r < |buf| && Low(buf, r) && forall k :: i <= k < r ==> !Low(buf, k)
      else r == 0
    decreases |buf| - i
  {
    if 2 * i < |buf| && !Low(buf, i) {
      StartCutFromIsFirst(buf, i + 1);
      if exists k :: i <= k && 2 * k < |buf| && Low(buf, k) {
        var k :| i <= k && 2 * k < |buf| && Low(buf, k);
        assert k != i;
      }
    }
  }

  /** `buf[size - m]` is low. */
  predicate LowFromEnd(buf: seq<real>, m: int)
    requires 1 <= m <= |buf|
  {
    Low(buf, |buf| - m)
  }

  /** The second loop finds the first low sample counting back from the end, or leaves `r2` at `size - 1`. */
  lemma {:induction false} EndCutFromIsFirst(buf: seq<real>, i: nat)
    requires i >= 1
    ensures var r := EndCutFrom(buf, i);
      if exists k :: i <= k && 2 * k < |buf| && LowFromEnd(buf, k) then
        && i <= |buf| - r && 2 * (|buf| - r) < |buf| && LowFromEnd(buf, |buf| - r)
        && forall m :: i <= m < |buf| - r ==> !LowFromEnd(buf, m)
      else r == |buf| - 1
    decreases |buf| - i
  {
    if 2 * i < |buf| && !LowFromEnd(buf, i) {
      EndCutFromIsFirst(buf, i + 1);
      if exists k :: i <= k && 2 * k < |buf| && LowFromEnd(buf, k) {
        var k :| i <= k && 2 * k < |buf| && LowFromEnd(buf, k);
        assert k != i;
      }
    }
  }

  /** `for (i = 0; i < size / 2; i++) if (|buf[i]| < thres) { r1 = i; break; }` */
  method TrimStart(buf: array<real>) returns (r1: nat)
    ensures r1 == StartCut(buf[..])
  {
    r1 := 0;
    var i: nat := 0;
    while 2 * i < buf.Length
      invariant StartCutFrom(buf[..], i) == StartCut(buf[..])
      decreases buf.Length - i
    {
      if JsMath.Abs(buf[i]) < TrimThreshold {
        r1 := i;
        break;
      }
      i := i + 1;
    }
  }

  /** `for (i = 1; i < size / 2; i++) if (|buf[size - i]| < thres) { r2 = size - i; break; }` */
  method TrimEnd(buf: array<real>) returns (r2: int)
    ensures r2 == EndCut(buf[..])
  {
    r2 := buf.Length - 1;
    var i: nat := 1;
    while 2 * i < buf.Length
      invariant i >= 1
      invariant EndCutFrom(buf[..], i) == EndCut(buf[..])
      decreases buf.Length - i
    {
      if JsMath.Abs(buf[buf.Length - i]) < TrimThreshold {
        r2 := buf.Length - i;
        break;
      }
      i := i + 1;
    }
  }

  // ---------------------------------------------------------------- autocorrelation

  /** `Σ_{j < m} b[j] * b[j + lag]` */
  function Lag(b: seq<real>, lag: nat, m: nat): real
    requires lag + m <= |b|
    decreases m
  {
    if m == 0 then 0.0 else Lag(b, lag, m - 1) + b[m - 1] * b[m - 1 + lag]
  }

  /** The table `c`: `c[i] = Σ_{j < size - i} b[j] * b[j + i]`. */
  function Corr(b: seq<real>): (c: seq<real>)
    ensures |c| == |b|
  {
    seq(|b|, i requires 0 <= i < |b| => Lag(b, i, |b| - i))
  }

  /** The zero-lag entry is the buffer's energy, so it is never negative. */
  lemma {:induction false} LagZeroIsEnergy(b: seq<real>, m: nat)
    requires m <= |b|
    ensures Lag(b, 0, m) == Signal.SumSq(b[..m])
    decreases m
  {
    if m > 0 {
      LagZeroIsEnergy(b, m - 1);
      assert b[..m][..m - 1] == b[..m - 1];
    }
  }

  lemma CorrAtZero(b: seq<real>)
    requires |b| >= 1
    ensures Corr(b)[0] == Signal.SumSq(b) && Corr(b)[0] >= 0.0
  {
    LagZeroIsEnergy(b, |b|);
    assert b[..|b|] == b;
    Signal.SumSqZeroIffSilent(b);
  }

  /** The double loop that fills `c`, which starts filled with zeros. */
  method CorrelationFill(b: seq<real>) returns (c: array<real>)
    ensures fresh(c) && c[..] == Corr(b)
  {
    c := new real[|b|](_ => 0.0);
    var i := 0;
    while i < |b|
      invariant 0 <= i <= |b| && c.Length == |b|
      invariant forall k :: 0 <= k < i ==> c[k] == Lag(b, k, |b| - k)
      invariant forall k :: i <= k < |b| ==> c[k] == 0.0
    {
      var j := 0;
      while j < |b| - i
        invariant 0 <= j <= |b| - i
        invariant c[i] == Lag(b, i, j)
        invariant forall k :: 0 <= k < i ==> c[k] == Lag(b, k, |b| - k)
        invariant forall k :: i < k < |b| ==> c[k] == 0.0
      {
        c[i] := c[i] + b[j] * b[j + i];
        j := j + 1;
      }
      i := i + 1;
    }
    assert forall k :: 0 <= k < |b| ==> c[k] == Corr(b)[k];
  }

  // ---------------------------------------------------------------- first descent

  /** `while (c[d] > c[d + 1]) d++`, where reading past the end gives `undefined` and stops the loop. */
  function DescentEndFrom(c: seq<real>, d: nat): (e: nat)
    requires d < |c|
    ensures d <= e < |c|
    decreases |c| - d
  {
    if d + 1 < |c| && c[d] > c[d + 1] then DescentEndFrom(c, d + 1) else d
  }

  /** `d` ends the initial strictly falling run of `c`. */
  ghost predicate IsDescentEnd(c: seq<real>, d: nat)
  {
    d < |c|
    && (forall k :: 0 <= k < d ==> c[k] > c[k + 1])
    && !(d + 1 < |c| && c[d] > c[d + 1])
  }

  lemma {:induction false} DescentEndFromIsEnd(c: seq<real>, d: nat)
    requires d < |c| && forall k :: 0 <= k < d ==> c[k] > c[k + 1]
    ensures IsDescentEnd(c, DescentEndFrom(c, d))
    decreases |c| - d
  {
    if d + 1 < |c| && c[d] > c[d + 1] {
      DescentEndFromIsEnd(c, d + 1);
    }
  }

  method DescentLoop(c: array<real>) returns (d: nat)
    requires c.Length >= 1
    ensures d == DescentEndFrom(c[..], 0) && IsDescentEnd(c[..], d)
  {
    d := 0;
    while d + 1 < c.Length && c[d] > c[d + 1]
      invariant d < c.Length
      invariant DescentEndFrom(c[..], d) == DescentEndFrom(c[..], 0)
      decreases c.Length - d
    {
      d := d + 1;
    }
    DescentEndFromIsEnd(c[..], 0);
  }

  // ---------------------------------------------------------------- peak

  /**
   * `maxpos` of the scan over `[from, size)` that starts from `maxval = -1`,
   * `maxpos = -1` and takes strictly larger values: the first index of the
   * largest entry above -1, or -1 when there is none.
   */
  function Peak(c: seq<real>, from: nat): (p: int)
    ensures p == -1 || from <= p < |c|
    decreases |c| - from
  {
    if from >= |c| then -1
    else
      var q := Peak(c, from + 1);
      if c[from] > -1.0 && (q == -1 || c[from] >= c[q]) then from else q
  }

  /** The scan's outcome stated outright. */
  ghost predicate IsFirstPeak(c: seq<real>, from: nat, p: int)
  {
    if p == -1 then forall i :: from <= i < |c| ==> c[i] <= -1.0
    else
      && from <= p < |c| && c[p] > -1.0
      && (forall i :: from <= i < |c| ==> c[i] <= c[p])
      && (forall i :: from <= i < p ==> c[i] < c[p])
  }

  lemma {:induction false} PeakIsFirstPeak(c: seq<real>, from: nat)
    ensures IsFirstPeak(c, from, Peak(c, from))
    decreases |c| - from
  {
    if from < |c| {
      PeakIsFirstPeak(c, from + 1);
    }
  }

  /** The outright statement pins the index down. */
  lemma FirstPeakUnique(c: seq<real>, from: nat, p: int, q: int)
    requires IsFirstPeak(c, from, p) && IsFirstPeak(c, from, q)
    ensures p == q
  {
    if p != -1 && q != -1 {
      assert c[p] <= c[q] && c[q] <= c[p];
    }
  }

  /** The argmax loop. */
  method FirstPeak(c: array<real>, d: nat) returns (maxpos: int)
    requires d <= c.Length
    ensures IsFirstPeak(c[..], d, maxpos) && maxpos == Peak(c[..], d)
  {
    var maxval := -1.0;
    maxpos := -1;
    var i := d;
    while i < c.Length
      invariant d <= i <= c.Length
      invariant maxpos == -1 ==> maxval == -1.0 && forall k :: d <= k < i ==> c[k] <= -1.0
      invariant maxpos != -1 ==>
        && d <= maxpos < i && maxval == c[maxpos] && maxval > -1.0
        && (forall k :: d <= k < i ==> c[k] <= maxval)
        && (forall k :: d <= k < maxpos ==> c[k] < maxval)
    {
      if c[i] > maxval {
        maxval := c[i];
        maxpos := i;
      }
      i := i + 1;
    }
    PeakIsFirstPeak(c[..], d);
    FirstPeakUnique(c[..], d, maxpos, Peak(c[..], d));
  }

  // ---------------------------------------------------------------- parabola

  /**
   * `T0 - b / (2a)` for the parabola through the peak and its neighbours.
   * The source reads `c[T0 - 1]` and `c[T0 + 1]` unguarded: out of range
   * they are `undefined`, `a` is `NaN` and `if (a)` skips the shift, which
   * is the range test written here.
   */
  function Refine(c: seq<real>, t0: int): real
  {
    if 1 <= t0 && t0 + 1 < |c| then
      var x1, x2, x3 := c[t0 - 1], c[t0], c[t0 + 1];
      var a := (x1 + x3 - 2.0 * x2) / 2.0;
      var b := (x3 - x1) / 2.0;
      if a != 0.0 then t0 as real - b / (2.0 * a) else t0 as real
    else t0 as real
  }

  lemma NegativeFactor(x: real, y: real)
    requires y < 0.0 && x * y >= 0.0
    ensures x <= 0.0
  {
  }

  lemma ShiftBound(b: real, a: real)
    requires a < 0.0 && b <= -a && -b <= -a
    ensures -0.5 <= b / (2.0 * a) <= 0.5
  {
    var q := b / (2.0 * a);
    assert q * (2.0 * a) == b;
    NegativeFactor(q - 0.5, 2.0 * a);
    NegativeFactor(-0.5 - q, 2.0 * a);
  }

  /**
   * At a peak `p >= 1` found after the descent, the refined period stays
   * within half a sample of `p`: inside the run after the descent the
   * parabola opens downwards, and a peak right at the end of the descent has
   * an equal right neighbour and moves by exactly one half.
   */
  lemma RefineNearPeak(c: seq<real>, d: nat, p: int)
    requires IsDescentEnd(c, d) && IsFirstPeak(c, d, p) && p >= 1
    ensures p as real - 0.5 <= Refine(c, p) <= p as real + 0.5
  {
    if p + 1 < |c| {
      var x1, x2, x3 := c[p - 1], c[p], c[p + 1];
      var a := (x1 + x3 - 2.0 * x2) / 2.0;
      var b := (x3 - x1) / 2.0;
      assert x3 <= x2;
      if p == d {
        assert x1 > x2 && x3 == x2;
        assert a > 0.0 && b == -a;
        assert b / (2.0 * a) == -0.5;
      } else {
        assert x1 < x2;
        ShiftBound(b, a);
      }
    }
  }

  // ---------------------------------------------------------------- the whole detector

  /** `autoCorrelate` as written, on a buffer of at least two samples. */
  function Detect(buf: seq<real>): Detection
    requires |buf| >= 2
  {
    if IsQuiet(buf) then Silent
    else
      TrimBounds(buf);
      var c := Corr(buf[StartCut(buf)..EndCut(buf)]);
      Period(Refine(c, Peak(c, DescentEndFrom(c, 0))))
  }

  /** The peak index `Detect` refines, for a loud buffer. */
  function PeakOf(buf: seq<real>): int
    requires |buf| >= 2
  {
    TrimBounds(buf);
    var c := Corr(buf[StartCut(buf)..EndCut(buf)]);
    Peak(c, DescentEndFrom(c, 0))
  }

  /**
   * `autoCorrelate`. The analyser's `fftSize` is 2048, so the buffer has at
   * least two samples.
   */
  method AutoCorrelate(buf: array<real>) returns (det: Detection)
    requires buf.Length >= 2
    ensures det == Detect(buf[..])
  {
    var sumSquares := Signal.SumOfSquares(buf);
    if sumSquares < 0.0001 * buf.Length as real {
      return Silent;
    }
    var r1 := TrimStart(buf);
    var r2 := TrimEnd(buf);
    TrimBounds(buf[..]);
    var buf2 := buf[r1..r2];
    var c := CorrelationFill(buf2);
    var d := DescentLoop(c);
    var maxpos := FirstPeak(c, d);
    var t0 := maxpos as real;
    if 1 <= maxpos && maxpos + 1 < c.Length {
      var x1, x2, x3 := c[maxpos - 1], c[maxpos], c[maxpos + 1];
      var a := (x1 + x3 - 2.0 * x2) / 2.0;
      var b := (x3 - x1) / 2.0;
      if a != 0.0 {
        t0 := t0 - b / (2.0 * a);
      }
    }
    det := Period(t0);
  }

  /**
   * A loud buffer whose trimmed part is silent yields period 0, for which
   * the source returns `sampleRate / 0`, i.e. `Infinity`, as a frequency.
   */
  lemma ZeroPeriodExample()
    ensures Detect([0.9, 0.0, 0.0, 0.9]) == Period(0.0)
  {
    var buf := [0.9, 0.0, 0.0, 0.9];
    assert buf[..3] == [0.9, 0.0, 0.0] && [0.9, 0.0, 0.0][..2] == [0.9, 0.0];
    assert [0.9, 0.0][..1] == [0.9] && [0.9][..0] == [];
    assert Signal.SumSq([0.9]) == 0.81;
    assert Signal.SumSq([0.9, 0.0]) == 0.81;
    assert Signal.SumSq([0.9, 0.0, 0.0]) == 0.81;
    assert Signal.SumSq(buf) == 1.62;
    assert StartCut(buf) == 1;
    assert EndCut(buf) == 3;
    var c := Corr(buf[1..3]);
    var b := [0.0, 0.0];
    assert buf[1..3] == b;
    assert Lag(b, 0, 1) == 0.0 && Lag(b, 0, 2) == 0.0 && Lag(b, 1, 1) == 0.0;
    assert c[0] == 0.0 && c[1] == 0.0;
    assert DescentEndFrom(c, 0) == 0;
    assert Peak(c, 2) == -1 && Peak(c, 1) == 1 && Peak(c, 0) == 0;
  }

  /**
   * A loud buffer whose correlations after the descent are all at most -1
   * yields period -1, for which the source returns the negative frequency
   * `-sampleRate` and reports it as a pitch.
   */
  lemma NegativePeriodExample()
    ensures Detect([1.0, -1.0, 1.0]) == Period(-1.0)
  {
    var buf := [1.0, -1.0, 1.0];
    assert buf[..2] == [1.0, -1.0] && [1.0, -1.0][..1] == [1.0] && [1.0][..0] == [];
    assert Signal.SumSq([1.0]) == 1.0;
    assert Signal.SumSq([1.0, -1.0]) == 2.0;
    assert Signal.SumSq(buf) == 3.0;
    assert StartCut(buf) == 0;
    assert EndCut(buf) == 2;
    var c := Corr(buf[0..2]);
    var b := [1.0, -1.0];
    assert buf[0..2] == b;
    assert Lag(b, 0, 1) == 1.0 && Lag(b, 0, 2) == 2.0 && Lag(b, 1, 1) == -1.0;
    assert c[0] == 2.0 && c[1] == -1.0;
    assert DescentEndFrom(c, 0) == 1;
    assert Peak(c, 2) == -1 && Peak(c, 1) == -1;
  }

  /** The detector with the evidently intended guard: a peak that is not past lag 0 means no pitch. */
  function Guard(det: Detection): Detection
  {
    if det.Period? && det.t0 <= 0.0 then Silent else det
  }

  function GuardedDetect(buf: seq<real>): Detection
    requires |buf| >= 2
  {
    Guard(Detect(buf))
  }

  /**
   * The guarded detector reports a period exactly when the buffer is loud
   * and the peak lies past lag 0, and then the period is at least half a
   * sample, so `sampleRate / T0` is a positive frequency of at most twice
   * the sample rate.
   */
  lemma GuardedDetectSound(buf: seq<real>)
    requires |buf| >= 2
    ensures GuardedDetect(buf).Period? <==> !IsQuiet(buf) && PeakOf(buf) >= 1
    ensures GuardedDetect(buf).Period? ==>
      GuardedDetect(buf).t0 >= 0.5 && GuardedDetect(buf).t0 < |buf| as real
  {
    if !IsQuiet(buf) {
      TrimBounds(buf);
      var c := Corr(buf[StartCut(buf)..EndCut(buf)]);
      var d := DescentEndFrom(c, 0);
      var p := Peak(c, d);
      DescentEndFromIsEnd(c, 0);
      PeakIsFirstPeak(c, d);
      if p >= 1 {
        RefineNearPeak(c, d, p);
      }
    }
  }

  // ---------------------------------------------------------------- getNote

  /** JavaScript's `%` for a positive divisor: the remainder takes the sign of the dividend. */
  function JsRem(m: int, k: int): (r: int)
    requires k > 0
    ensures m >= 0 ==> r == m % k
    ensures -k < r < k && (m < 0 ==> r <= 0)
  {
    if m >= 0 then m % k else -((-m) % k)
  }

  /** The integer part of `getNote`'s result; `note` is `None` where the source reads `undefined`. */
  datatype NoteReading = NoteReading(note: Option<string>, cents: int, octave: int)

  /**
   * `getNote` given the note number `12 * log2(frequency / a4)`. The cents
   * use `log2(frequency / targetFreq)`, which in exact arithmetic is
   * `(noteNum - (midiNum - 69)) / 12`.
   */
  function GetNote(noteNum: real): NoteReading
  {
    var midiNum := JsMath.Round(noteNum) + 69;
    var noteIndex := JsRem(midiNum, 12);
    var note := if 0 <= noteIndex < 12 then Some(NoteStrings[noteIndex]) else None;
    var octave := midiNum / 12 - 1;
    var cents := (1200.0 * ((noteNum - (midiNum - 69) as real) / 12.0)).Floor;
    NoteReading(note, cents, octave)
  }

  /**
   * For a MIDI number of at least 0 the name is `NOTE_STRINGS[midi % 12]`
   * and name index and octave recompose the MIDI number; the cents always
   * lie in [-50, 50).
   */
  lemma GetNoteFacts(noteNum: real)
    ensures var midi := JsMath.Round(noteNum) + 69;
      var r := GetNote(noteNum);
      && (midi >= 0 ==> r.note == Some(NoteStrings[midi % 12]) && 12 * (r.octave + 1) + midi % 12 == midi)
      && -50 <= r.cents < 50
  {
    var midi := JsMath.Round(noteNum) + 69;
    var e := noteNum - (midi - 69) as real;
    assert -0.5 <= e < 0.5;
    assert 1200.0 * (e / 12.0) == 100.0 * e;
  }

  /** A4 (note number 0, MIDI 69) and C4 (MIDI 60). */
  lemma NoteExamples()
    ensures GetNote(0.0).note == Some("A") && GetNote(0.0).octave == 4
    ensures GetNote(-9.0).note == Some("C") && GetNote(-9.0).octave == 4
  {
    assert JsMath.Round(0.0) == 0;
    assert JsMath.Round(-9.0) == -9;
  }

  // ---------------------------------------------------------------- frame update

  /**
   * The `PitchData` state. `None` stands for the values JavaScript cannot
   * represent as a number: `undefined` for the note, `NaN` for the cents,
   * the infinite `sampleRate / 0` for the frequency, and `NaN` or an
   * infinity for the octave.
   */
  class Tracker {
    var note: Option<string>
    var cents: Option<int>
    var frequency: Option<real>
    var isSilent: bool
    var octave: Option<int>

    constructor()
      ensures note == Some("-") && cents == Some(0) && frequency == Some(0.0) && isSilent && octave == Some(0)
    {
      note, cents, frequency, isSilent, octave := Some("-"), Some(0), Some(0.0), true, Some(0);
    }

    /**
     * The reading of a pitched frame at frequency `f`: `getNote` of a
     * positive frequency, and for a non-positive or infinite one the
     * logarithms give `NaN` or an infinity, so note, cents and octave are
     * all unrepresentable.
     */
    ghost predicate Shows(f: Option<real>, noteNumOf: real -> real)
      reads this
    {
      && !isSilent && frequency == f
      && if f.Some? && f.value > 0.0 then
           var r := GetNote(noteNumOf(f.value));
           note == r.note && cents == Some(r.cents) && octave == Some(r.octave)
         else
           note.None? && cents.None? && octave.None?
    }

    /** `setPitchData` with the result of `getNote(f)` and `isSilent: false`. */
    method Store(f: Option<real>, noteNumOf: real -> real)
      modifies this
      ensures Shows(f, noteNumOf)
    {
      frequency, isSilent := f, false;
      if f.Some? && f.value > 0.0 {
        var r := GetNote(noteNumOf(f.value));
        note, cents, octave := r.note, Some(r.cents), Some(r.octave);
      } else {
        note, cents, octave := None, None, None;
      }
    }

    /**
     * `updatePitch` on one buffer, as written: only the value `-1` counts
     * as silence, so a loud buffer with period 0 stores the infinite
     * frequency and one with period -1 the negative `-sampleRate`, both as
     * a sounding frame.
     */
    method UpdatePitch(buf: array<real>, sampleRate: real, noteNumOf: real -> real)
      requires buf.Length >= 2
      modifies this
      ensures var det := Detect(buf[..]);
        var silentFrame := det.Silent? || (det.t0 != 0.0 && sampleRate / det.t0 == -1.0);
        && (silentFrame ==>
              isSilent && note == old(note) && cents == old(cents) &&
              frequency == old(frequency) && octave == old(octave))
        && (!silentFrame ==>
              Shows(if det.t0 == 0.0 then None else Some(sampleRate / det.t0), noteNumOf))
    {
      var det := AutoCorrelate(buf);
      if det.Silent? || (det.t0 != 0.0 && sampleRate / det.t0 == -1.0) {
        isSilent := true;
      } else if det.t0 == 0.0 {
        Store(None, noteNumOf);
      } else {
        Store(Some(sampleRate / det.t0), noteNumOf);
      }
    }

    /**
     * `updatePitch` with the guarded detector: a silent frame only sets
     * `isSilent` and keeps the last note, cents, frequency and octave; a
     * pitched frame has a positive period and stores its reading.
     */
    method UpdatePitchGuarded(buf: array<real>, sampleRate: real, noteNumOf: real -> real)
      requires buf.Length >= 2
      modifies this
      ensures GuardedDetect(buf[..]).Silent? ==>
        isSilent && note == old(note) && cents == old(cents) &&
        frequency == old(frequency) && octave == old(octave)
      ensures GuardedDetect(buf[..]).Period? ==>
        var t0 := GuardedDetect(buf[..]).t0;
        t0 > 0.0 && Shows(Some(sampleRate / t0), noteNumOf)
    {
      var det := AutoCorrelate(buf);
      if det.Silent? || det.t0 <= 0.0 {
        isSilent := true;
      } else {
        Store(Some(sampleRate / det.t0), noteNumOf);
      }
    }
  }
  /**
   * The frames of the two degenerate buffers as the source stores them:
   * both count as sounding, one with an infinite frequency and one with
   * the negative `-sampleRate`, and neither has a note name.
   */
  method DegenerateFrames(t: Tracker, sampleRate: real, noteNumOf: real -> real)
    requires sampleRate > 1.0
    modifies t
    ensures !t.isSilent && t.frequency == Some(-sampleRate) && t.note.None? && t.cents.None?
  {
    var zero := new real[4] [0.9, 0.0, 0.0, 0.9];
    assert zero[..] == [0.9, 0.0, 0.0, 0.9];
    ZeroPeriodExample();
    t.UpdatePitch(zero, sampleRate, noteNumOf);
    assert !t.isSilent && t.frequency.None? && t.note.None?;
    var negative := new real[3] [1.0, -1.0, 1.0];
    assert negative[..] == [1.0, -1.0, 1.0];
    NegativePeriodExample();
    t.UpdatePitch(negative, sampleRate, noteNumOf);
  }
}
