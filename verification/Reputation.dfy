/** Verifier statistics and the moving average of their reputation, on exact reals with rounding to 4 decimals. */
module Reputation {
  import opened Rounding

  function Round4(x: real): real
  {
    RoundHalfEven(10000.0 * x) as real / 10000.0
  }

  /** One step of the moving average towards `target`. */
  function Blend(score: real, target: real): real
  {
    Round4(0.7 * score + 0.3 * target)
  }

  /** 100 times the success rate. */
  function Target(successful: nat, total: nat): real
    requires total > 0
  {
    successful as real / total as real * 100.0
  }

  datatype Stats = Stats(total: nat, successful: nat, score: real)

  predicate Fair(s: Stats)
  {
    s.successful <= s.total && 0.0 <= s.score <= 100.0
  }

  function Updated(s: Stats): Stats
  {
    if s.total > 0 then s.(score := Blend(s.score, Target(s.successful, s.total))) else s
  }

  function Attested(s: Stats, ok: bool): Stats
  {
    Stats(s.total + 1, s.successful + if ok then 1 else 0, s.score)
  }

  class VerifierNode {
    var totalAttestations: nat
    var successfulAttestations: nat
    var reputationScore: real

    constructor ()
      ensures Now() == Stats(0, 0, 0.0)
    {
      totalAttestations, successfulAttestations, reputationScore := 0, 0, 0.0;
    }

    ghost function Now(): Stats
      reads this
    {
      Stats(totalAttestations, successfulAttestations, reputationScore)
    }
  }

  ghost predicate Apart(nodes: seq<VerifierNode>)
  {
    forall i, j :: 0 <= i < j < |nodes| ==> nodes[i] != nodes[j]
  }

  method UpdateReputation(verifiers: seq<VerifierNode>) returns (updated: nat)
    requires Apart(verifiers)
    modifies verifiers
    ensures updated == |verifiers|
    ensures forall i :: 0 <= i < |verifiers| ==> verifiers[i].Now() == Updated(old(verifiers[i].Now()))
  {
    updated := 0;
    for i := 0 to |verifiers|
      invariant updated == i
      invariant forall k :: 0 <= k < i ==> verifiers[k].Now() == Updated(old(verifiers[k].Now()))
      invariant forall k :: i <= k < |verifiers| ==> verifiers[k].Now() == old(verifiers[k].Now())
    {
      var v := verifiers[i];
      if v.totalAttestations > 0 {
        var successRate := v.successfulAttestations as real / v.totalAttestations as real;
        v.reputationScore := Round4(0.7 * v.reputationScore + 0.3 * (successRate * 100.0));
      }
      updated := updated + 1;
    }
  }

  /** Counts one attestation for each verifier; `decisions` are the outcomes of the rule checks. */
  method AutoVerify(verifiers: seq<VerifierNode>, decisions: seq<bool>) returns (attestations: nat)
    requires Apart(verifiers) && |decisions| == |verifiers|
    modifies verifiers
    ensures attestations == |verifiers|
    ensures forall i :: 0 <= i < |verifiers| ==> verifiers[i].Now() == Attested(old(verifiers[i].Now()), decisions[i])
  {
    attestations := 0;
    for i := 0 to |verifiers|
      invariant attestations == i
      invariant forall k :: 0 <= k < i ==> verifiers[k].Now() == Attested(old(verifiers[k].Now()), decisions[k])
      invariant forall k :: i <= k < |verifiers| ==> verifiers[k].Now() == old(verifiers[k].Now())
    {
      var v := verifiers[i];
      v.totalAttestations := v.totalAttestations + 1;
      if decisions[i] {
        v.successfulAttestations := v.successfulAttestations + 1;
      }
      attestations := attestations + 1;
    }
  }

  // ----- runs -----

  datatype Event = Attest(ok: bool) | Update

  function After(s: Stats, events: seq<Event>): Stats
  {
    if events == [] then s
    else
      var before := After(s, events[..|events| - 1]);
      match events[|events| - 1]
      case Attest(ok) => Attested(before, ok)
      case Update => Updated(before)
  }

  lemma TargetInRange(successful: nat, total: nat)
    requires total > 0 && successful <= total
    ensures 0.0 <= Target(successful, total) <= 100.0
  {
    var rate := successful as real / total as real;
    assert rate * total as real == successful as real;
    assert 0.0 <= rate <= 1.0;
  }

  lemma BlendInRange(score: real, target: real)
    requires 0.0 <= score <= 100.0 && 0.0 <= target <= 100.0
    ensures 0.0 <= Blend(score, target) <= 100.0
  {
    RoundBetween(0, 10000.0 * (0.7 * score + 0.3 * target), 1000000);
  }

  /** Over any run of attestations and updates, a verifier never has more successes than
      attestations and its score stays between 0 and 100. */
  lemma {:induction false} RunStaysFair(s: Stats, events: seq<Event>)
    requires Fair(s)
    ensures Fair(After(s, events))
  {
    if events != [] {
      var before := After(s, events[..|events| - 1]);
      RunStaysFair(s, events[..|events| - 1]);
      if before.total > 0 {
        TargetInRange(before.successful, before.total);
        BlendInRange(before.score, Target(before.successful, before.total));
      }
    }
  }

  // ----- convergence -----

  function Iterate(score: real, target: real, k: nat): real
  {
    if k == 0 then score else Blend(Iterate(score, target, k - 1), target)
  }

  function Power(x: real, k: nat): real
  {
    if k == 0 then 1.0 else x * Power(x, k - 1)
  }

  function Gap(x: real, y: real): real
  {
    if x < y then y - x else x - y
  }

  lemma BlendCloser(score: real, target: real)
    ensures Gap(Blend(score, target), target) <= 0.7 * Gap(score, target) + 0.00005
  {
    var x := 0.7 * score + 0.3 * target;
    RoundNearest(10000.0 * x);
    assert -0.00005 <= Round4(x) - x <= 0.00005;
    assert x - target == 0.7 * (score - target);
  }

  lemma PowerStep(k: nat, g: real)
    requires k > 0
    ensures Times(Power(0.7, k), g) == 0.7 * Times(Power(0.7, k - 1), g)
  {
    Associate(0.7, Power(0.7, k - 1), g);
  }

  lemma OneTimes(x: real)
    ensures Times(1.0, x) == x
  {}

  lemma Associate(x: real, y: real, z: real)
    ensures Times(x * y, z) == x * Times(y, z)
  {}

  /** While the success rate stays the same, `k` updates bring the score to within
      0.7^k of the initial gap, plus what rounding every step can add up to. */
  lemma {:induction false} Converges(score: real, target: real, k: nat)
    ensures Gap(Iterate(score, target, k), target) <= Times(Power(0.7, k), Gap(score, target)) + 0.00005 / 0.3
  {
    hide Blend, Times, Gap;
    if k == 0 {
      OneTimes(Gap(score, target));
    } else {
      Converges(score, target, k - 1);
      BlendCloser(Iterate(score, target, k - 1), target);
      PowerStep(k, Gap(score, target));
    }
  }

  function UpdateCount(events: seq<Event>): nat
  {
    if events == [] then 0
    else UpdateCount(events[..|events| - 1]) + if events[|events| - 1] == Update then 1 else 0
  }

  /** Every update of the run finds the success rate, times 100, at `target`. */
  predicate KeepsRate(s: Stats, events: seq<Event>, target: real)
  {
    events == [] ||
    (KeepsRate(s, events[..|events| - 1], target)
     && (events[|events| - 1] == Update ==>
           var before := After(s, events[..|events| - 1]);
           before.total > 0 && Target(before.successful, before.total) == target))
  }

  lemma {:induction false} RunIterates(s: Stats, events: seq<Event>, target: real)
    requires KeepsRate(s, events, target)
    ensures After(s, events).score == Iterate(s.score, target, UpdateCount(events))
  {
    hide Blend, Target;
    if events != [] {
      RunIterates(s, events[..|events| - 1], target);
    }
  }

  /** Over any run whose updates all find the same success rate, with attestations in between or
      not, the score closes in on that rate as `Converges` says. */
  lemma RunConverges(s: Stats, events: seq<Event>, target: real)
    requires KeepsRate(s, events, target)
    ensures Gap(After(s, events).score, target)
         <= Times(Power(0.7, UpdateCount(events)), Gap(s.score, target)) + 0.00005 / 0.3
  {
    RunIterates(s, events, target);
    Converges(s.score, target, UpdateCount(events));
  }

  // ----- arrival -----

  /** A score as it is stored, in ten-thousandths. */
  function Stored(n: int): real
  {
    n as real / 10000.0
  }

  function BlendStored(n: int, m: int): int
  {
    RoundHalfEven(0.7 * n as real + 0.3 * m as real)
  }

  lemma BlendOfStored(n: int, m: int)
    ensures Blend(Stored(n), Stored(m)) == Stored(BlendStored(n, m))
  {
    assert 10000.0 * (0.7 * Stored(n) + 0.3 * Stored(m)) == 0.7 * n as real + 0.3 * m as real;
  }

  lemma BlendArrives(n: int, m: int)
    ensures BlendStored(n, m) == m <==> n == m
  {
    var x := 0.7 * n as real + 0.3 * m as real;
    assert x - m as real == 0.7 * (n - m) as real;
    RoundNearest(x);
  }

  lemma {:induction false} IterateStored(n: int, m: int, k: nat) returns (r: int)
    ensures Iterate(Stored(n), Stored(m), k) == Stored(r)
    ensures r == m <==> n == m
  {
    hide Blend, Stored, BlendStored;
    if k == 0 {
      r := n;
    } else {
      var before := IterateStored(n, m, k - 1);
      BlendOfStored(before, m);
      BlendArrives(before, m);
      r := BlendStored(before, m);
    }
  }

  /** The last ten-thousandth is never closed: a stored score arrives at a target of four decimals,
      after any number of updates, exactly if it started there. */
  lemma ArrivesOnlyFromThere(n: int, m: int, k: nat)
    ensures Iterate(Stored(n), Stored(m), k) == Stored(m) <==> n == m
  {
    var r := IterateStored(n, m, k);
  }

  /** A verifier that has never failed and does not fail. */
  predicate Perfect(s: Stats, events: seq<Event>)
  {
    s.successful == s.total && Attest(false) !in events
  }

  lemma {:induction false} PerfectRate(s: Stats, events: seq<Event>)
    requires Perfect(s, events)
    ensures After(s, events).successful == After(s, events).total
    ensures After(s, events).total > 0 ==> Target(After(s, events).successful, After(s, events).total) == 100.0
  {
    hide Blend, Target;
    if events != [] {
      PerfectRate(s, events[..|events| - 1]);
    }
    if After(s, events).total > 0 {
      FullTarget(After(s, events).total);
    }
  }

  lemma FullTarget(n: nat)
    requires n > 0
    ensures Target(n, n) == 100.0
  {
    assert n as real / n as real == 1.0;
  }

  lemma {:induction false} PerfectStored(s: Stats, events: seq<Event>, n: int) returns (r: int)
    requires Perfect(s, events) && s.score == Stored(n)
    ensures After(s, events).score == Stored(r)
    ensures r == 1000000 <==> n == 1000000
  {
    hide Blend, Target;
    if events == [] {
      r := n;
    } else {
      var before := PerfectStored(s, events[..|events| - 1], n);
      PerfectRate(s, events[..|events| - 1]);
      r := before;
      if events[|events| - 1] == Update && After(s, events[..|events| - 1]).total > 0 {
        BlendOfStored(before, 1000000);
        BlendArrives(before, 1000000);
        r := BlendStored(before, 1000000);
      }
    }
  }

  /** Over any run, a verifier that never fails has a score of 100 exactly if it started with one. */
  lemma PerfectReachesOnlyFromThere(s: Stats, events: seq<Event>, n: int)
    requires Perfect(s, events) && s.score == Stored(n)
    ensures After(s, events).score == 100.0 <==> n == 1000000
  {
    var r := PerfectStored(s, events, n);
  }

  /** From any score at or below 99.9999, stored or not, it stays there. */
  lemma {:induction false} PerfectStaysBelow(s: Stats, events: seq<Event>)
    requires Perfect(s, events) && s.score <= 99.9999
    ensures After(s, events).score <= 99.9999
  {
    if events != [] {
      PerfectStaysBelow(s, events[..|events| - 1]);
      PerfectRate(s, events[..|events| - 1]);
      BlendStaysBelow(After(s, events[..|events| - 1]).score);
    }
  }

  lemma BlendStaysBelow(score: real)
    requires score <= 99.9999
    ensures Blend(score, 100.0) <= 99.9999
  {
    RoundMonotone(10000.0 * (0.7 * score + 30.0), 999999.3);
    assert RoundHalfEven(999999.3) == 999999;
  }
}
