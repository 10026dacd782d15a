/**
 * The dynamic markings of `components/DynamicsMeter.tsx`: the eight keys in
 * `DYNAMIC_ORDER`, the default thresholds, the nearest-threshold
 * classification of a level (`getDynamicMarking`) and the level bar.
 * Thresholds are decibels, one per key.
 */
module DynamicsMarking {
  import opened Wrappers
  import JsMath

  datatype DynKey = PPP | PP | P | MP | MF | F | FF | FFF

  /** `DYNAMIC_ORDER`, softest first. */
  const Order: seq<DynKey> := [PPP, PP, P, MP, MF, F, FF, FFF]

  /** A key's place in `DYNAMIC_ORDER`: every key occurs there. */
  function Rank(k: DynKey): (i: nat)
    ensures i < |Order| && Order[i] == k
  {
    match k
    case PPP => 0 case PP => 1 case P => 2 case MP => 3
    case MF => 4 case F => 5 case FF => 6 case FFF => 7
  }

  /** ... and only once: the key at place `i` has rank `i`. */
  lemma RankOfOrder(i: nat)
    requires i < |Order|
    ensures Rank(Order[i]) == i
  {
  }

  /** The marking's text, which is the key's own name. */
  function Name(k: DynKey): string
  {
    match k
    case PPP => "ppp" case PP => "pp" case P => "p" case MP => "mp"
    case MF => "mf" case F => "f" case FF => "ff" case FFF => "fff"
  }

  /** `DYNAMIC_LABELS[k].label` */
  function Label(k: DynKey): string
  {
    match k
    case PPP => "Piano Pianissimo" case PP => "Pianissimo" case P => "Piano"
    case MP => "Mezzo Piano" case MF => "Mezzo Forte" case F => "Forte"
    case FF => "Fortissimo" case FFF => "Fortississimo"
  }

  /** `Record<DynamicKey, number>` */
  type Thresholds = map<DynKey, real>

  /** Every key has a threshold. */
  predicate Complete(t: Thresholds)
  {
    forall k: DynKey :: k in t
  }

  /** `DEFAULT_THRESHOLDS` */
  const Defaults: Thresholds :=
    map[PPP := -60.0, PP := -50.0, P := -40.0, MP := -32.0,
        MF := -24.0, F := -16.0, FF := -10.0, FFF := -5.0]

  /** Thresholds that rise strictly along `DYNAMIC_ORDER`. */
  predicate Increasing(t: Thresholds)
    requires Complete(t)
  {
    forall i, j :: 0 <= i < j < |Order| ==> t[Order[i]] < t[Order[j]]
  }

  /** The defaults are complete and strictly increasing. */
  lemma DefaultsIncreasing()
    ensures Complete(Defaults) && Increasing(Defaults)
  {
    assert Complete(Defaults) by {
      forall k: DynKey ensures k in Defaults {
        match k
        case PPP => case PP => case P => case MP =>
        case MF => case F => case FF => case FFF =>
      }
    }
    forall i, j | 0 <= i < j < |Order|
      ensures Defaults[Order[i]] < Defaults[Order[j]]
    {
      assert Defaults[Order[i]] <= Defaults[Order[j - 1]];
    }
  }

  /** Distance from the level to a key's threshold. */
  function Gap(t: Thresholds, db: real, k: DynKey): real
    requires Complete(t)
  {
    JsMath.Abs(db - t[k])
  }

  /**
   * `k` is the key nearest to `db` among the first `n` keys, and no key
   * before it is as near: the first minimum of the scan.
   */
  ghost predicate NearestAmong(t: Thresholds, db: real, k: DynKey, n: nat)
    requires Complete(t)
  {
    && Rank(k) < n
    && (forall j :: 0 <= j < n && j < |Order| ==> Gap(t, db, k) <= Gap(t, db, Order[j]))
    && (forall j :: 0 <= j < Rank(k) ==> Gap(t, db, Order[j]) > Gap(t, db, k))
  }

  /** The nearest key over all of `DYNAMIC_ORDER`, ties going to the earlier key. */
  ghost predicate IsNearest(t: Thresholds, db: real, k: DynKey)
    requires Complete(t)
  {
    NearestAmong(t, db, k, |Order|)
  }

  /** The first nearest key among `Order[i..]`. */
  function NearestFrom(t: Thresholds, db: real, i: nat): (k: DynKey)
    requires Complete(t) && i < |Order|
    ensures i <= Rank(k)
    decreases |Order| - i
  {
    if i == |Order| - 1 then Order[i]
    else
      var q := NearestFrom(t, db, i + 1);
      if Gap(t, db, Order[i]) <= Gap(t, db, q) then Order[i] else q
  }

  function Nearest(t: Thresholds, db: real): DynKey
    requires Complete(t)
  {
    NearestFrom(t, db, 0)
  }

  /** No key of `Order[i..]` is nearer than the scan's choice. */
  lemma {:induction false} NearestFromIsMinimum(t: Thresholds, db: real, i: nat)
    requires Complete(t) && i < |Order|
    ensures forall j :: i <= j < |Order| ==> Gap(t, db, NearestFrom(t, db, i)) <= Gap(t, db, Order[j])
    decreases |Order| - i
  {
    if i < |Order| - 1 {
      NearestFromIsMinimum(t, db, i + 1);
    }
  }

  /** Every key of `Order[i..]` before the scan's choice is strictly farther. */
  lemma {:induction false} NearestFromIsFirst(t: Thresholds, db: real, i: nat)
    requires Complete(t) && i < |Order|
    ensures forall j :: i <= j < Rank(NearestFrom(t, db, i)) ==> Gap(t, db, Order[j]) > Gap(t, db, NearestFrom(t, db, i))
    decreases |Order| - i
  {
    if i < |Order| - 1 {
      var q := NearestFrom(t, db, i + 1);
      if Gap(t, db, Order[i]) <= Gap(t, db, q) {
        RankOfOrder(i);
        assert Rank(NearestFrom(t, db, i)) == i;
      } else {
        NearestFromIsFirst(t, db, i + 1);
        assert NearestFrom(t, db, i) == q;
      }
    }
  }

  /** Two first minima of the scan are the same key. */
  lemma NearestUnique(t: Thresholds, db: real, k1: DynKey, k2: DynKey)
    requires Complete(t) && IsNearest(t, db, k1) && IsNearest(t, db, k2)
    ensures k1 == k2
  {
    assert Gap(t, db, k1) <= Gap(t, db, Order[Rank(k2)]);
    assert Gap(t, db, k2) <= Gap(t, db, Order[Rank(k1)]);
  }

  lemma NearestIsNearest(t: Thresholds, db: real)
    requires Complete(t)
    ensures IsNearest(t, db, Nearest(t, db))
  {
    NearestFromIsMinimum(t, db, 0);
    NearestFromIsFirst(t, db, 0);
  }

  /** What `getDynamicMarking` returns: the "Silent" marking or a key. */
  datatype Marking = Silent | Dynamic(key: DynKey)

  /** Levels more than 10 dB below `ppp` are silent; otherwise the nearest key. */
  function Classify(t: Thresholds, db: real): Marking
    requires Complete(t)
  {
    if db < t[PPP] - 10.0 then Silent else Dynamic(Nearest(t, db))
  }

  /** `getDynamicMarking`: the scan that keeps the first strictly nearer key. */
  method GetDynamicMarking(t: Thresholds, db: real) returns (m: Marking)
    requires Complete(t)
    ensures m == Classify(t, db)
    ensures m.Silent? <==> db < t[PPP] - 10.0
    ensures m.Dynamic? ==> IsNearest(t, db, m.key)
  {
    var closestKey := PPP;
    var minDiff: Option<real> := None;  // `Infinity`
    var i := 0;
    while i < |Order|
      invariant 0 <= i <= |Order|
      invariant i == 0 <==> minDiff.None?
      invariant i > 0 ==> minDiff == Some(Gap(t, db, closestKey)) && NearestAmong(t, db, closestKey, i)
    {
      var key := Order[i];
      var diff := JsMath.Abs(db - t[key]);
      if minDiff.None? || diff < minDiff.value {
        minDiff := Some(diff);
        closestKey := key;
      }
      i := i + 1;
    }
    NearestIsNearest(t, db);
    NearestUnique(t, db, closestKey, Nearest(t, db));
    if db < t[PPP] - 10.0 {
      return Silent;
    }
    return Dynamic(closestKey);
  }

  /**
   * With the default thresholds -24 dB is `mf`, -20 dB (equally far from
   * `mf` and `f`) is `mf` as the earlier key, and -71 dB is silent.
   */
  lemma DefaultExamples()
    ensures Complete(Defaults)
    ensures Classify(Defaults, -24.0) == Dynamic(MF)
    ensures Classify(Defaults, -20.0) == Dynamic(MF)
    ensures Classify(Defaults, -71.0) == Silent
  {
    DefaultsIncreasing();
    assert Defaults[PPP] == -60.0;
    DefaultNearest(-24.0);
    DefaultNearest(-20.0);
  }

  /** The scan over the default thresholds for a level between -24 and -20 dB. */
  lemma DefaultNearest(db: real)
    requires -24.0 <= db <= -20.0
    ensures Complete(Defaults) && Nearest(Defaults, db) == MF
  {
    DefaultsIncreasing();
    var t := Defaults;
    assert t[FFF] == -5.0 && t[FF] == -10.0 && t[F] == -16.0 && t[MF] == -24.0;
    assert t[MP] == -32.0 && t[P] == -40.0 && t[PP] == -50.0 && t[PPP] == -60.0;
    assert NearestFrom(t, db, 6) == FF;
    assert NearestFrom(t, db, 5) == F;
    assert NearestFrom(t, db, 4) == MF;
    assert NearestFrom(t, db, 3) == MF;
    assert NearestFrom(t, db, 2) == MF;
    assert NearestFrom(t, db, 1) == MF;
  }

  /** A quotient by a positive denominator is at most 0 for a non-positive numerator and at least 1 for a numerator at least the denominator. */
  lemma RatioBounds(a: real, d: real)
    requires d != 0.0
    ensures d > 0.0 && a <= 0.0 ==> a / d <= 0.0
    ensures d > 0.0 && a >= d ==> a / d >= 1.0
  {
    var x := a / d;
    assert x * d == a;
  }

  /** `barPercentage`: the level's place between `ppp` and `fff`, clamped to [0, 100]. */
  function BarPercentage(t: Thresholds, smoothedDb: real): (r: real)
    requires Complete(t) && t[FFF] != t[PPP]
    ensures 0.0 <= r <= 100.0
    ensures t[PPP] < t[FFF] && smoothedDb <= t[PPP] ==> r == 0.0
    ensures t[PPP] < t[FFF] && smoothedDb >= t[FFF] ==> r == 100.0
  {
    var minT, maxT := t[PPP], t[FFF];
    var x := (smoothedDb - minT) / (maxT - minT);
    RatioBounds(smoothedDb - minT, maxT - minT);
    JsMath.Min(100.0, JsMath.Max(0.0, x * 100.0))
  }
}
