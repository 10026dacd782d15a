/**
 * The sound-level display of `components/DecibelMeter.tsx`: the digital
 * level is shifted by 100 dB into an approximate SPL reading, scaled onto a
 * 0-120 dB bar, sorted into five bands, and followed by a peak marker that
 * jumps up with the reading and sinks by 0.5 dB per 50 ms tick.
 */
module DecibelMeter {
  import JsMath

  /** Offset from the analyser's dBFS level to the displayed dB SPL. */
  const SplOffset: real := 100.0
  /** The SPL at the right end of the bar. */
  const MaxSpl: real := 120.0
  /** How far the peak marker sinks per decay tick. */
  const PeakDecay: real := 0.5

  /** `currentSPL`: 0 while silent, otherwise the shifted level, never below 0. */
  function CurrentSpl(db: real, isSilent: bool): (spl: real)
    ensures spl >= 0.0
    ensures isSilent ==> spl == 0.0
    ensures !isSilent ==> spl >= db + SplOffset && (spl == 0.0 || spl == db + SplOffset)
  {
    if isSilent then 0.0 else JsMath.Max(0.0, db + SplOffset)
  }

  /** `normalized`: the reading as a percentage of 120 dB, clamped to [0, 100]. */
  function Normalized(spl: real): (r: real)
    ensures 0.0 <= r <= 100.0
    ensures 0.0 <= spl <= MaxSpl ==> r * MaxSpl == spl * 100.0
    ensures spl >= MaxSpl ==> r == 100.0
    ensures spl <= 0.0 ==> r == 0.0
  {
    JsMath.Min(100.0, JsMath.Max(0.0, (spl / MaxSpl) * 100.0))
  }

  /** The status bands, quietest first. */
  datatype Band = Quiet | Moderate | Loud | VeryLoud | Painful

  /** The `if`/`else if` chain: each bound belongs to the band below it. */
  function BandOf(spl: real): (b: Band)
    ensures b == Painful <==> spl > 105.0
    ensures b == VeryLoud <==> 90.0 < spl <= 105.0
    ensures b == Loud <==> 80.0 < spl <= 90.0
    ensures b == Moderate <==> 50.0 < spl <= 80.0
    ensures b == Quiet <==> spl <= 50.0
  {
    if spl > 105.0 then Painful
    else if spl > 90.0 then VeryLoud
    else if spl > 80.0 then Loud
    else if spl > 50.0 then Moderate
    else Quiet
  }

  /** A band's place from quiet (0) to painful (4). */
  function Severity(b: Band): nat
  {
    match b
    case Quiet => 0 case Moderate => 1 case Loud => 2 case VeryLoud => 3 case Painful => 4
  }

  /** `statusText` */
  function StatusText(b: Band): string
  {
    match b
    case Quiet => "Quiet" case Moderate => "Moderate" case Loud => "Loud"
    case VeryLoud => "Very Loud" case Painful => "Painful"
  }

  /** A louder reading never lands in a quieter band. */
  lemma BandMonotone(spl1: real, spl2: real)
    requires spl1 <= spl2
    ensures Severity(BandOf(spl1)) <= Severity(BandOf(spl2))
  {
  }

  /** The bar and the band agree: a fuller bar never shows a quieter band. */
  lemma NormalizedMonotone(spl1: real, spl2: real)
    requires spl1 <= spl2
    ensures Normalized(spl1) <= Normalized(spl2)
  {
    assert spl1 / MaxSpl <= spl2 / MaxSpl;
  }

  /** The peak marker (`peak` with its effect). */
  class PeakHold {
    var peak: real

    ghost predicate Valid()
      reads this
    {
      peak >= 0.0
    }

    constructor()
      ensures Valid() && peak == 0.0
    {
      peak := 0.0;
    }

    /** The effect on a new reading: the peak is raised when the reading exceeds it. */
    method Observe(spl: real)
      requires Valid() && spl >= 0.0
      modifies this
      ensures Valid()
      ensures peak == JsMath.Max(old(peak), spl)
      ensures peak >= spl && peak >= old(peak)
    {
      if spl > peak {
        peak := spl;
      }
    }

    /** The 50 ms timeout: the peak sinks by 0.5 dB and stops at 0. */
    method DecayTick()
      requires Valid()
      modifies this
      ensures Valid()
      ensures peak == JsMath.Max(old(peak) - PeakDecay, 0.0)
      ensures peak <= old(peak) && old(peak) - peak <= PeakDecay
    {
      peak := JsMath.Max(peak - PeakDecay, 0.0);
    }
  }

  /** `n` decay ticks with no louder reading. */
  function DecayFrames(p: real, n: nat): real
    decreases n
  {
    if n == 0 then p else JsMath.Max(DecayFrames(p, n - 1) - PeakDecay, 0.0)
  }

  /**
   * Without louder readings the marker sinks at exactly 0.5 dB per tick and
   * rests at 0 once it gets there: after `n` ticks it is `max(p - 0.5 n, 0)`.
   */
  lemma {:induction false} DecayFramesClosedForm(p: real, n: nat)
    requires p >= 0.0
    ensures DecayFrames(p, n) == JsMath.Max(p - PeakDecay * n as real, 0.0)
    decreases n
  {
    if n > 0 {
      DecayFramesClosedForm(p, n - 1);
      assert PeakDecay * n as real == PeakDecay * (n - 1) as real + PeakDecay;
    }
  }
}
