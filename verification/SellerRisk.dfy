/** Risk thresholds for sellers who leave orders unconfirmed, and the liability they scale. */
module SellerRisk {
  import opened Text
  import opened Sorting
  import opened Rounding

  /** A catalog threshold; zero and the empty string stand for missing or falsy entries. */
  datatype Threshold = Threshold(
    count: int,
    tier: string,
    bondMultiplier: real,
    forceOwnerConfirm: bool,
    ttlScale: real,
    discoveryDemote: bool)
  {
    function Multiplier(): real
    {
      OrDefault(bondMultiplier, 1.0)
    }
  }

  /** The merged policy of a scene. */
  datatype ScenePolicy = ScenePolicy(
    thresholds: seq<Threshold>,
    highRisk: bool,
    forceOwnerConfirm: bool,
    maxReputationHit: real,
    deltaOnTimeout: real,
    deltaOnReject: real,
    baseBondBps: real,
    compensationBps: real)

  datatype Active = Active(
    tier: string,
    bondMultiplier: real,
    forceOwnerConfirm: bool,
    ttlScale: real,
    discoveryDemote: bool,
    thresholdCount: int)

  predicate CountLe(a: Threshold, b: Threshold)
  {
    a.count <= b.count
  }

  /** The last of `ts` that `count` has reached. */
  function LastReached(ts: seq<Threshold>, count: int): Option<Threshold>
  {
    if ts == [] then None
    else if ts[|ts| - 1].count <= count then Some(ts[|ts| - 1])
    else LastReached(ts[..|ts| - 1], count)
  }

  function Reached(pol: ScenePolicy, count: int): Option<Threshold>
  {
    LastReached(SortBy(pol.thresholds, CountLe), count)
  }

  function ActiveFor(pol: ScenePolicy, t: Option<Threshold>): Active
  {
    var force := pol.highRisk || pol.forceOwnerConfirm;
    match t
    case None => Active("normal", 1.0, force, 1.0, false, 0)
    case Some(u) => Active(if u.tier == "" then "elevated" else u.tier, u.Multiplier(), u.forceOwnerConfirm || force,
                           OrDefault(u.ttlScale, 1.0), u.discoveryDemote, u.count)
  }

  /** Walks the thresholds in order of their counts; later ones replace earlier ones. */
  method ThresholdForCount(pol: ScenePolicy, count: int) returns (active: Active)
    ensures active == ActiveFor(pol, Reached(pol, count))
  {
    var ts := SortBy(pol.thresholds, CountLe);
    SortedByCount(pol);
    active := Active("normal", 1.0, pol.forceOwnerConfirm, 1.0, false, 0);
    ghost var chosen: Option<Threshold> := None;
    for i := 0 to |ts|
      invariant chosen == LastReached(ts[..i], count)
      invariant active == match chosen
        case None => Active("normal", 1.0, pol.forceOwnerConfirm, 1.0, false, 0)
        case Some(u) => Active(if u.tier == "" then "elevated" else u.tier, u.Multiplier(),
                               u.forceOwnerConfirm || pol.forceOwnerConfirm, OrDefault(u.ttlScale, 1.0),
                               u.discoveryDemote, u.count)
    {
      var t := ts[i];
      assert ts[..i + 1][..i] == ts[..i] && ts[..i + 1][i] == t;
      if count >= t.count {
        active := Active(if t.tier == "" then "elevated" else t.tier, OrDefault(t.bondMultiplier, 1.0),
                         t.forceOwnerConfirm || pol.forceOwnerConfirm, OrDefault(t.ttlScale, 1.0),
                         t.discoveryDemote, t.count);
        chosen := Some(t);
      }
    }
    assert ts[..|ts|] == ts;
    if pol.highRisk || pol.forceOwnerConfirm {
      active := active.(forceOwnerConfirm := true);
    }
  }

  lemma SortedByCount(pol: ScenePolicy)
    ensures Sorted(SortBy(pol.thresholds, CountLe), CountLe)
    ensures forall t :: t in SortBy(pol.thresholds, CountLe) <==> t in pol.thresholds
  {
    SortSorts(pol.thresholds, CountLe);
    SortPermutes(pol.thresholds, CountLe);
    SameElements(SortBy(pol.thresholds, CountLe), pol.thresholds);
  }

  lemma {:induction false} LastReachedGreatest(ts: seq<Threshold>, count: int)
    requires Sorted(ts, CountLe)
    ensures var r := LastReached(ts, count);
      && (r.Some? ==> r.value in ts && r.value.count <= count)
      && (forall t :: t in ts && t.count <= count ==> r.Some? && t.count <= r.value.count)
  {
    if ts != [] {
      var last := ts[|ts| - 1];
      assert ts == ts[..|ts| - 1] + [last];
      if last.count <= count {
        forall t | t in ts ensures t.count <= last.count {
          var i :| 0 <= i < |ts| && ts[i] == t;
          assert i < |ts| - 1 ==> CountLe(ts[i], last);
        }
      } else {
        LastReachedGreatest(ts[..|ts| - 1], count);
      }
    }
  }

  /** The active threshold is a catalog threshold with the greatest count not above the seller's;
      there is none exactly when every threshold lies above it. */
  lemma GreatestThreshold(pol: ScenePolicy, count: int)
    ensures Reached(pol, count).None? <==> forall t :: t in pol.thresholds ==> t.count > count
    ensures Reached(pol, count).Some? ==>
      var r := Reached(pol, count).value;
      r in pol.thresholds && r.count <= count
      && forall t :: t in pol.thresholds && t.count <= count ==> t.count <= r.count
  {
    SortedByCount(pol);
    LastReachedGreatest(SortBy(pol.thresholds, CountLe), count);
  }

  // ----- the ratchet -----

  /** A catalog whose multipliers do not fall as counts rise, and start at one or above. */
  ghost predicate Escalating(pol: ScenePolicy)
  {
    && (forall t :: t in pol.thresholds ==> t.Multiplier() >= 1.0)
    && (forall t, u :: t in pol.thresholds && u in pol.thresholds && t.count < u.count ==>
          t.Multiplier() <= u.Multiplier())
  }

  function BondMultiplier(pol: ScenePolicy, count: int): real
  {
    ActiveFor(pol, Reached(pol, count)).bondMultiplier
  }

  lemma {:induction false} LastReachedSame(ts: seq<Threshold>, count: int, more: int)
    requires count <= more && LastReached(ts, count).Some? && LastReached(ts, more).Some?
    requires LastReached(ts, count).value.count == LastReached(ts, more).value.count
    ensures LastReached(ts, count) == LastReached(ts, more)
  {
    if ts[|ts| - 1].count > count {
      assert LastReached(ts, count) == LastReached(ts[..|ts| - 1], count);
      LastReachedBelow(ts[..|ts| - 1], count);
      if ts[|ts| - 1].count > more {
        LastReachedSame(ts[..|ts| - 1], count, more);
      }
    }
  }

  lemma {:induction false} LastReachedBelow(ts: seq<Threshold>, count: int)
    ensures LastReached(ts, count).Some? ==> LastReached(ts, count).value.count <= count
  {
    if ts != [] && ts[|ts| - 1].count > count {
      LastReachedBelow(ts[..|ts| - 1], count);
    }
  }

  lemma MultiplierRatchet(pol: ScenePolicy, count: int, more: int)
    requires Escalating(pol) && count <= more
    ensures 1.0 <= BondMultiplier(pol, count) <= BondMultiplier(pol, more)
  {
    GreatestThreshold(pol, count);
    GreatestThreshold(pol, more);
    var r, s := Reached(pol, count), Reached(pol, more);
    if r.Some? && s.Some? && r.value.count == s.value.count {
      LastReachedSame(SortBy(pol.thresholds, CountLe), count, more);
    }
  }

  // ----- liability after a confirmed order -----

  /** Amounts in millionths, as rounded to six decimals. */
  datatype Liability = Liability(
    amount: real,
    bondMultiplier: real,
    effectiveBondBps: int,
    bondMicros: int,
    effectiveCompensationBps: int,
    compensationMicros: int)

  function BaseBondBps(pol: ScenePolicy): int
  {
    OrDefault(pol.baseBondBps, 500.0).Floor
  }

  function BaseCompensationBps(pol: ScenePolicy): int
  {
    OrDefault(pol.compensationBps, 1000.0).Floor
  }

  /** The exact share of an amount in basis points. */
  function Share(amount: real, bps: int): real
  {
    Times(amount, bps as real) / 10000.0
  }

  function Micros(amount: real, bps: int): int
  {
    RoundHalfEven(Share(amount, bps) * 1000000.0)
  }

  /** A base rate scaled by the seller's multiplier. */
  function EffectiveBps(base: int, multiplier: real): int
  {
    RoundHalfEven(Times(base as real, multiplier))
  }

  function ArmPostConfirmLiability(pol: ScenePolicy, count: int, amount: real): Liability
  {
    var mult := BondMultiplier(pol, count);
    var bond := EffectiveBps(BaseBondBps(pol), mult);
    var comp := EffectiveBps(BaseCompensationBps(pol), mult);
    var amt := Max(0.0, amount);
    Liability(amt, mult, bond, Micros(amt, bond), comp, Micros(amt, comp))
  }

  /** Each amount is within half a millionth of the exact basis-point share. */
  lemma LiabilityExact(pol: ScenePolicy, count: int, amount: real)
    ensures var l := ArmPostConfirmLiability(pol, count, amount);
      && -0.5 <= l.bondMicros as real - Share(l.amount, l.effectiveBondBps) * 1000000.0 <= 0.5
      && -0.5 <= l.compensationMicros as real - Share(l.amount, l.effectiveCompensationBps) * 1000000.0 <= 0.5
  {
    var l := ArmPostConfirmLiability(pol, count, amount);
    RoundNearest(Share(l.amount, l.effectiveBondBps) * 1000000.0);
    RoundNearest(Share(l.amount, l.effectiveCompensationBps) * 1000000.0);
  }

  lemma EffectiveBpsMonotone(base: int, x: real, y: real)
    requires 0 <= base && 0.0 <= x <= y
    ensures 0 <= EffectiveBps(base, x) <= EffectiveBps(base, y)
  {
    TimesMonotone(base as real, x, y);
    TimesMonotone(base as real, 0.0, x);
    TimesOne(base as real);
    RoundMonotone(Times(base as real, x), Times(base as real, y));
    NotNegative(Times(base as real, x));
  }

  lemma NotNegative(x: real)
    requires 0.0 <= x
    ensures 0 <= RoundHalfEven(x)
  {
    RoundMonotone(0.0, x);
  }

  lemma ShareMonotone(amount: real, bps: int, more: int)
    requires 0.0 <= amount && 0 <= bps <= more
    ensures 0.0 <= Share(amount, bps) <= Share(amount, more)
  {
    TimesMonotone(amount, bps as real, more as real);
    TimesMonotone(amount, 0.0, bps as real);
    TimesOne(amount);
  }

  lemma MicrosMonotone(amount: real, bps: int, more: int)
    requires 0.0 <= amount && 0 <= bps <= more
    ensures 0 <= Micros(amount, bps) <= Micros(amount, more)
  {
    ShareMonotone(amount, bps, more);
    var p, q := Share(amount, bps), Share(amount, more);
    RoundMonotone(p * 1000000.0, q * 1000000.0);
    NotNegative(p * 1000000.0);
  }

  /** More unconfirmed orders never lower a seller's multiplier, bond or compensation. */
  lemma LiabilityRatchet(pol: ScenePolicy, count: int, more: int, amount: real)
    requires Escalating(pol) && count <= more && 0 <= BaseBondBps(pol) && 0 <= BaseCompensationBps(pol)
    ensures var l, m := ArmPostConfirmLiability(pol, count, amount), ArmPostConfirmLiability(pol, more, amount);
      && l.bondMultiplier <= m.bondMultiplier
      && l.effectiveBondBps <= m.effectiveBondBps && l.bondMicros <= m.bondMicros
      && l.effectiveCompensationBps <= m.effectiveCompensationBps
      && 0 <= l.compensationMicros <= m.compensationMicros
  {
    MultiplierRatchet(pol, count, more);
    var x, y := BondMultiplier(pol, count), BondMultiplier(pol, more);
    var l, m := ArmPostConfirmLiability(pol, count, amount), ArmPostConfirmLiability(pol, more, amount);
    EffectiveBpsMonotone(BaseBondBps(pol), x, y);
    EffectiveBpsMonotone(BaseCompensationBps(pol), x, y);
    MicrosMonotone(l.amount, l.effectiveBondBps, m.effectiveBondBps);
    MicrosMonotone(l.amount, l.effectiveCompensationBps, m.effectiveCompensationBps);
  }

  function ClampFraction(f: real): (r: real)
    ensures 0.0 <= r <= 1.0
  {
    Max(0.0, Min(1.0, f))
  }

  /** The compensation payable for a breach, in millionths. */
  function CompensationDue(l: Liability, fraction: real): int
  {
    RoundHalfEven(Times(l.compensationMicros as real, ClampFraction(fraction)))
  }

  /** What is due grows with the breach, never exceeds the agreed compensation, and reaches it
      for a full breach. */
  lemma CompensationDueBounds(l: Liability, f: real, g: real)
    requires 0 <= l.compensationMicros && f <= g
    ensures 0 <= CompensationDue(l, f) <= CompensationDue(l, g) <= l.compensationMicros
    ensures g >= 1.0 ==> CompensationDue(l, g) == l.compensationMicros
  {
    var c := l.compensationMicros as real;
    Portions(c, ClampFraction(f), ClampFraction(g));
    RoundOrdered(Times(c, ClampFraction(f)), Times(c, ClampFraction(g)), l.compensationMicros);
  }

  lemma Portions(whole: real, p: real, q: real)
    requires 0.0 <= whole && 0.0 <= p <= q <= 1.0
    ensures 0.0 <= Times(whole, p) <= Times(whole, q) <= whole
    ensures q == 1.0 ==> Times(whole, q) == whole
  {
    TimesMonotone(whole, p, q);
    TimesMonotone(whole, q, 1.0);
    TimesMonotone(whole, 0.0, p);
    TimesOne(whole);
  }
}
