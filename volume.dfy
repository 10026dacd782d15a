/**
 * The level meter of `hooks/useVolume.ts`. Each animation frame it reads
 * the analyser's time-domain buffer, computes the root mean square and its
 * level in decibels (-100 for a silent buffer), smooths the level
 * exponentially, and flags silence from the raw level. The square root and
 * the base-10 logarithm are parameters: `sqrt` is only required to be a
 * non-negative square root, and `log10` is left free.
 */
module Volume {
  import Signal
  import JsMath

  /** The level reported for a buffer whose root mean square is zero. */
  const SilentDb: real := -100.0
  /** Weight of the new level in the exponential smoothing. */
  const Smoothing: real := 0.2
  /** Raw levels below this are silence. */
  const SilenceDb: real := -60.0

  /** `rms > 0 ? 20 * Math.log10(rms) : -100` */
  function RawDb(rms: real, log10: real -> real): real
  {
    if rms > 0.0 then 20.0 * log10(rms) else SilentDb
  }

  /**
   * The smoothing rule: a previous level of exactly -100 (the initial state,
   * or silence) takes the new level as it is; otherwise the new level
   * moves 20% of the way from the previous one.
   */
  function Smooth(prev: real, db: real): real
  {
    if prev == SilentDb then db else prev * (1.0 - Smoothing) + db * Smoothing
  }

  /** A non-negative square root on the non-negative reals. */
  ghost predicate IsSquareRoot(sqrt: real -> real)
  {
    forall x :: x >= 0.0 ==> sqrt(x) >= 0.0 && sqrt(x) * sqrt(x) == x
  }

  class Meter {
    var rms: real
    var db: real
    var isSilent: bool

    /** The state before the microphone starts. */
    constructor()
      ensures rms == 0.0 && db == SilentDb && isSilent
    {
      rms, db, isSilent := 0.0, SilentDb, true;
    }

    /**
     * `updateVolume` on one analyser buffer: `rms` is the raw root mean
     * square, `db` the smoothed level and `isSilent` compares the raw level
     * with -60 dB. Analysers are created with `fftSize = 512`, so the buffer
     * is never empty.
     */
    method UpdateVolume(buf: array<real>, sqrt: real -> real, log10: real -> real)
      requires buf.Length >= 1 && IsSquareRoot(sqrt)
      modifies this
      ensures rms >= 0.0 && rms * rms == Signal.SumSq(buf[..]) / buf.Length as real
      ensures rms == sqrt(Signal.SumSq(buf[..]) / buf.Length as real)
      ensures db == Smooth(old(db), RawDb(rms, log10))
      ensures isSilent == (RawDb(rms, log10) < SilenceDb)
    {
      var sumSquares := Signal.SumOfSquares(buf);
      Signal.SumSqZeroIffSilent(buf[..]);
      var newRms := sqrt(sumSquares / buf.Length as real);
      var raw := if newRms > 0.0 then 20.0 * log10(newRms) else SilentDb;
      var smoothDb := if db == SilentDb then raw else db * (1.0 - Smoothing) + raw * Smoothing;
      rms, db, isSilent := newRms, smoothDb, raw < SilenceDb;
    }

    /** `stopMic`: the state returns to silence. */
    method StopMic()
      modifies this
      ensures rms == 0.0 && db == SilentDb && isSilent
    {
      rms, db, isSilent := 0.0, SilentDb, true;
    }
  }

  /**
   * The root mean square of a buffer is zero exactly when every sample is
   * zero, and then the level is the -100 dB floor whatever `log10` is.
   */
  lemma RmsZeroIffSilent(buf: seq<real>, rms: real, log10: real -> real)
    requires |buf| >= 1 && rms >= 0.0 && rms * rms == Signal.SumSq(buf) / |buf| as real
    ensures rms == 0.0 <==> Signal.AllZero(buf)
    ensures Signal.AllZero(buf) ==> RawDb(rms, log10) == SilentDb
  {
    Signal.SumSqZeroIffSilent(buf);
    var n := |buf| as real;
    assert Signal.SumSq(buf) == rms * rms * n;
    if rms == 0.0 {
      assert Signal.SumSq(buf) == 0.0;
    }
    if Signal.AllZero(buf) {
      assert rms * rms * n == 0.0;
      Signal.ProductZero(rms * rms, n);
      Signal.ProductZero(rms, rms);
    }
  }

  /** After a -100 level the raw level is taken unsmoothed. */
  lemma SeedTakesRaw(db: real)
    ensures Smooth(SilentDb, db) == db
  {
  }

  /** Otherwise the smoothed level lies between the previous level and the new one. */
  lemma SmoothBetween(prev: real, db: real)
    requires prev != SilentDb
    ensures JsMath.Min(prev, db) <= Smooth(prev, db) <= JsMath.Max(prev, db)
    ensures Smooth(prev, db) - db == 0.8 * (prev - db)
  {
  }

  /** `n` frames of smoothing towards a constant raw level `d`. */
  function SmoothRepeat(prev: real, d: real, n: nat): real
    decreases n
  {
    if n == 0 then prev else Smooth(SmoothRepeat(prev, d, n - 1), d)
  }

  /** `0.8 ^ n` */
  function Decay(n: nat): (r: real)
    ensures 0.0 < r <= 1.0
    decreases n
  {
    if n == 0 then 1.0 else 0.8 * Decay(n - 1)
  }

  /**
   * Fed a constant raw level, the distance to that level shrinks by at
   * least a factor of 0.8 per frame (it drops to zero at once when the
   * smoothed level passes exactly through -100).
   */
  lemma {:induction false} SmoothConverges(prev: real, d: real, n: nat)
    ensures JsMath.Abs(SmoothRepeat(prev, d, n) - d) <= Decay(n) * JsMath.Abs(prev - d)
    decreases n
  {
    if n > 0 {
      SmoothConverges(prev, d, n - 1);
      var p := SmoothRepeat(prev, d, n - 1);
      var bound := Decay(n - 1) * JsMath.Abs(prev - d);
      assert Decay(n) * JsMath.Abs(prev - d) == 0.8 * bound;
      if p != SilentDb {
        assert SmoothRepeat(prev, d, n) - d == 0.8 * (p - d);
      }
    }
  }
}
