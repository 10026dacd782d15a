/**
 * The tempo bounds and the time-signature table (`constants.ts`), with the
 * `TimeSignature` enumeration (`types.ts`) as a datatype.
 */
module Constants {

  const MIN_BPM: int := 30
  const MAX_BPM: int := 300
  const DEFAULT_BPM: int := 120

  /** The time signatures offered by the settings panel. */
  datatype TimeSignature =
    | FourFour | ThreeFour | TwoFour | SixEight
    | FiveFour | SevenEight | NineEight | TwelveEight

  /** The enumeration's string value, e.g. "6/8". */
  function Label(ts: TimeSignature): string
  {
    match ts
    case FourFour => "4/4"
    case ThreeFour => "3/4"
    case TwoFour => "2/4"
    case SixEight => "6/8"
    case FiveFour => "5/4"
    case SevenEight => "7/8"
    case NineEight => "9/8"
    case TwelveEight => "12/8"
  }

  /** One entry of `SIGNATURE_CONFIGS`: beats per bar and the note value. */
  datatype SignatureConfig = SignatureConfig(beats: int, value: int)

  /** Decimal digits of a natural number, most significant first. */
  function NatToString(n: nat): (s: string)
    ensures |s| >= 1
    ensures forall i :: 0 <= i < |s| ==> '0' <= s[i] <= '9'
    decreases n
  {
    if n < 10 then [('0' as int + n) as char]
    else NatToString(n / 10) + [('0' as int + n % 10) as char]
  }

  /**
   * `SIGNATURE_CONFIGS[ts]`: every entry has at least one beat (the
   * metronome's bar wrap depends on it), a note value of 4 or 8, and beats and
   * value equal to the numerator and denominator written in the key.
   */
  function Config(ts: TimeSignature): (c: SignatureConfig)
    ensures c.beats >= 1
    ensures c.value == 4 || c.value == 8
    ensures Label(ts) == NatToString(c.beats) + "/" + NatToString(c.value)
  {
    match ts
    case FourFour => SignatureConfig(4, 4)
    case ThreeFour => SignatureConfig(3, 4)
    case TwoFour => SignatureConfig(2, 4)
    case FiveFour => SignatureConfig(5, 4)
    case SixEight => SignatureConfig(6, 8)
    case SevenEight => SignatureConfig(7, 8)
    case NineEight => SignatureConfig(9, 8)
    case TwelveEight => SignatureConfig(12, 8)
  }
}
