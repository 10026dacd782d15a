/**
 * The sample-buffer arithmetic shared by `hooks/useVolume.ts` and
 * `hooks/usePitchDetector.ts`: the sum of squares of a time-domain buffer
 * and the relation between its root mean square and a threshold. Float32
 * samples are exact reals.
 */
module Signal {

  /** `Σ s[i]²`, accumulated front to back. */
  function SumSq(s: seq<real>): real
  {
    if |s| == 0 then 0.0 else SumSq(s[..|s| - 1]) + s[|s| - 1] * s[|s| - 1]
  }

  /** The accumulation loop over the analyser buffer. */
  method SumOfSquares(buf: array<real>) returns (sumSquares: real)
    ensures sumSquares == SumSq(buf[..])
  {
    sumSquares := 0.0;
    var i := 0;
    while i < buf.Length
      invariant 0 <= i <= buf.Length
      invariant sumSquares == SumSq(buf[..i])
    {
      assert buf[..i + 1][..i] == buf[..i];
      sumSquares := sumSquares + buf[i] * buf[i];
      i := i + 1;
    }
    assert buf[..i] == buf[..];
  }

  /** Every sample is silent. */
  predicate AllZero(s: seq<real>)
  {
    forall i :: 0 <= i < |s| ==> s[i] == 0.0
  }

  /** A product is zero only when a factor is. */
  lemma ProductZero(x: real, y: real)
    requires x * y == 0.0
    ensures x == 0.0 || y == 0.0
  {
    if x != 0.0 {
      assert y == (x * y) / x;
    }
  }

  /** A sum of squares is never negative, and is zero exactly when every sample is. */
  lemma {:induction false} SumSqZeroIffSilent(s: seq<real>)
    ensures SumSq(s) >= 0.0
    ensures SumSq(s) == 0.0 <==> AllZero(s)
  {
    if |s| > 0 {
      var init := s[..|s| - 1];
      var x := s[|s| - 1];
      SumSqZeroIffSilent(init);
      assert x * x >= 0.0;
      if AllZero(s) {
        assert AllZero(init) by {
          forall i | 0 <= i < |init| ensures init[i] == 0.0 {
            assert init[i] == s[i];
          }
        }
        assert x == 0.0;
      }
      if SumSq(s) == 0.0 {
        assert x * x == 0.0 && SumSq(init) == 0.0;
        ProductZero(x, x);
        forall i | 0 <= i < |s| ensures s[i] == 0.0 {
          if i < |s| - 1 {
            assert s[i] == init[i];
          }
        }
      }
    }
  }

  /**
   * The silence gate without the square root: for a root mean square
   * `rms >= 0` with `rms² = sumSquares / size`, `rms < 0.01` holds exactly
   * when `sumSquares < 0.0001 * size`.
   */
  lemma GateWithoutRoot(sumSquares: real, size: nat, rms: real)
    requires size > 0 && rms >= 0.0 && rms * rms == sumSquares / size as real
    ensures rms < 0.01 <==> sumSquares < 0.0001 * size as real
  {
    var n := size as real;
    assert sumSquares == rms * rms * n;
    if rms < 0.01 {
      assert rms * rms < 0.0001 by {
        assert rms * rms <= rms * 0.01;
      }
    } else {
      assert rms * rms >= 0.0001 by {
        assert rms * rms >= rms * 0.01;
      }
    }
  }
}
