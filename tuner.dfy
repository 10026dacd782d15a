/**
 * The tuner display of `components/Tuner.tsx`: the needle clamps the cents
 * reading to [-50, 50] and maps it onto [-90, 90] degrees, a reading within
 * 3 cents is in tune, and the reference pitch A4 starts at 442 Hz and is
 * stepped by 1 Hz within [430, 450].
 */
module Tuner {
  import JsMath

  const InTuneCents: int := 3
  const DefaultA4: int := 442
  const MinA4: int := 430
  const MaxA4: int := 450

  /** `clampedCents = Math.max(-50, Math.min(50, cents))` */
  function ClampedCents(cents: int): (c: int)
    ensures -50 <= c <= 50
    ensures -50 <= cents <= 50 ==> c == cents
    ensures cents > 50 ==> c == 50
    ensures cents < -50 ==> c == -50
  {
    if cents > 50 then 50 else if cents < -50 then -50 else cents
  }

  /** `rotation`: the needle angle in degrees, 1.8 degrees per cent. */
  function Rotation(cents: int): (deg: real)
    ensures -90.0 <= deg <= 90.0
    ensures deg == 1.8 * ClampedCents(cents) as real
    ensures (deg < 0.0 <==> cents < 0) && (deg > 0.0 <==> cents > 0)
  {
    (ClampedCents(cents) as real / 50.0) * 90.0
  }

  /** The three status flags. */
  datatype Status = Status(isInTune: bool, isSharp: bool, isFlat: bool)

  function Flags(cents: int, isSilent: bool): Status
  {
    Status(!isSilent && JsMath.Abs(cents as real) <= InTuneCents as real,
           !isSilent && cents > InTuneCents,
           !isSilent && cents < -InTuneCents)
  }

  /** When not silent exactly one flag is set; while silent none is. */
  lemma ExactlyOneFlag(cents: int, isSilent: bool)
    ensures var s := Flags(cents, isSilent);
      && (isSilent ==> !s.isInTune && !s.isSharp && !s.isFlat)
      && (!isSilent ==> (if s.isInTune then 1 else 0) + (if s.isSharp then 1 else 0) + (if s.isFlat then 1 else 0) == 1)
      && (s.isInTune <==> !isSilent && -3 <= cents <= 3)
  {
  }

  /** `statusText` */
  function StatusText(cents: int, isSilent: bool): (t: string)
    ensures isSilent ==> t == "Listening..."
    ensures !isSilent && -3 <= cents <= 3 ==> t == "PERFECT"
    ensures !isSilent && cents < -3 ==> t == "TOO LOW"
    ensures !isSilent && cents > 3 ==> t == "TOO HIGH"
  {
    var s := Flags(cents, isSilent);
    if isSilent then "Listening..."
    else if s.isInTune then "PERFECT"
    else if s.isFlat then "TOO LOW"
    else "TOO HIGH"
  }

  /** The reference pitch state `referenceA4` with its two buttons. */
  class Reference {
    var a4: int

    ghost predicate Valid()
      reads this
    {
      MinA4 <= a4 <= MaxA4
    }

    constructor()
      ensures Valid() && a4 == DefaultA4
    {
      a4 := DefaultA4;
    }

    /** `handleDecreaseA4` */
    method Decrease()
      requires Valid()
      modifies this
      ensures Valid()
      ensures a4 == JsMath.ClampInt(old(a4) - 1, MinA4, MaxA4)
      ensures old(a4) - 1 <= a4 <= old(a4)
    {
      a4 := if a4 - 1 < MinA4 then MinA4 else a4 - 1;
    }

    /** `handleIncreaseA4` */
    method Increase()
      requires Valid()
      modifies this
      ensures Valid()
      ensures a4 == JsMath.ClampInt(old(a4) + 1, MinA4, MaxA4)
      ensures old(a4) <= a4 <= old(a4) + 1
    {
      a4 := if a4 + 1 > MaxA4 then MaxA4 else a4 + 1;
    }
  }
}
