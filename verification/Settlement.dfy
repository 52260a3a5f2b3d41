/** Off-chain settlement plans and the book that lets each step through once. */
module Settlement {
  import opened Text
  import opened Schemas
  import opened OperationalControls
  import opened Verification

  // ----- the recommended calls -----

  datatype Function = LockBuyer | LockAgent | Bind | Settle | FinalizeSettle

  function Name(f: Function): (s: string)
    ensures '|' !in s
  {
    match f
    case LockBuyer => "lockBuyer"
    case LockAgent => "lockAgent"
    case Bind => "bind"
    case Settle => "settle"
    case FinalizeSettle => "finalizeSettle"
  }

  lemma NamesDiffer(f: Function, g: Function)
    requires Name(f) == Name(g)
    ensures f == g
  {
    if |Name(f)| == 9 {
      assert Name(f)[4] == Name(g)[4];
    }
  }

  datatype Call = Call(function_: Function, token: string, amountWei: int, seller: string, scopeHash: string, proofHash: string)

  /** A call with the arguments its function takes; the others stay empty. */
  function MakeCall(f: Function, seller: string, token: string, amountWei: int, scopeHex: string, proofHash: string): Call
  {
    match f
    case LockBuyer => Call(f, token, amountWei, "", "", "")
    case LockAgent => Call(f, token, amountWei, seller, "", "")
    case Bind => Call(f, "", 0, "", scopeHex, "")
    case Settle => Call(f, "", 0, "", "", proofHash)
    case FinalizeSettle => Call(f, "", 0, "", "", "")
  }

  const ALL_FUNCTIONS := [LockBuyer, LockAgent, Bind, Settle, FinalizeSettle]

  predicate PaysOut(c: Call)
  {
    c.function_ == Settle || c.function_ == FinalizeSettle
  }

  function WithoutPayout(calls: seq<Call>): seq<Call>
  {
    if calls == [] then []
    else (if PaysOut(calls[0]) then [] else [calls[0]]) + WithoutPayout(calls[1..])
  }

  function BilateralCalls(seller: string, token: string, amountWei: int, scopeHex: string, proofHash: string,
                          pausePayout: bool): seq<Call>
  {
    var calls := [
      MakeCall(LockBuyer, seller, token, amountWei, scopeHex, proofHash),
      MakeCall(LockAgent, seller, token, amountWei, scopeHex, proofHash),
      MakeCall(Bind, seller, token, amountWei, scopeHex, proofHash),
      MakeCall(Settle, seller, token, amountWei, scopeHex, proofHash),
      MakeCall(FinalizeSettle, seller, token, amountWei, scopeHex, proofHash)];
    if pausePayout then WithoutPayout(calls) else calls
  }

  function Functions(calls: seq<Call>): (fs: seq<Function>)
    ensures |fs| == |calls| && forall i :: 0 <= i < |calls| ==> fs[i] == calls[i].function_
  {
    if calls == [] then [] else [calls[0].function_] + Functions(calls[1..])
  }

  /** Pausing payout drops exactly `settle` and `finalizeSettle`: the paused plan is the full plan's
      beginning, in the canonical order. */
  lemma PausedIsPrefix(seller: string, token: string, amountWei: int, scopeHex: string, proofHash: string)
    ensures var full := BilateralCalls(seller, token, amountWei, scopeHex, proofHash, false);
      var paused := BilateralCalls(seller, token, amountWei, scopeHex, proofHash, true);
      && Functions(full) == ALL_FUNCTIONS && paused == full[..3]
      && forall c :: c in full ==> (c in paused <==> !PaysOut(c))
  {
    var full := BilateralCalls(seller, token, amountWei, scopeHex, proofHash, false);
    WithoutPayoutSkips(full, 3);
    assert full[3..] == [full[3], full[4]];
    assert WithoutPayout(full[3..]) == WithoutPayout([full[4]]) == WithoutPayout([]);
  }

  lemma {:induction false} WithoutPayoutSkips(calls: seq<Call>, n: nat)
    requires n <= |calls| && forall i :: 0 <= i < n ==> !PaysOut(calls[i])
    ensures WithoutPayout(calls) == calls[..n] + WithoutPayout(calls[n..])
  {
    if n > 0 {
      WithoutPayoutSkips(calls[1..], n - 1);
      assert calls[1..][n - 1..] == calls[n..];
    }
  }

  // ----- step keys -----

  const NO_TRACE := "<no_trace>"

  function StepKey(traceId: string, bundleId: string, functionName: string): string
  {
    TracePart(traceId) + "|" + bundleId + "|" + functionName
  }

  /** A trace id that cannot be mistaken for another part of a key. */
  predicate PlainTrace(traceId: string)
  {
    '|' !in traceId && traceId != NO_TRACE
  }

  /** How many characters come before the first bar, and after the last one. */
  function BeforeBar(s: string): nat
  {
    if s == [] || s[0] == '|' then 0 else 1 + BeforeBar(s[1..])
  }

  function AfterBar(s: string): nat
  {
    if s == [] || s[|s| - 1] == '|' then 0 else 1 + AfterBar(s[..|s| - 1])
  }

  lemma {:induction false} BeforeBarIs(a: string, x: string)
    requires '|' !in a
    ensures BeforeBar(a + ("|" + x)) == |a|
  {
    var s := a + ("|" + x);
    if a == [] {
      assert s[0] == '|';
    } else {
      assert s[0] == a[0] && s[1..] == a[1..] + ("|" + x);
      BeforeBarIs(a[1..], x);
    }
  }

  lemma {:induction false} AfterBarIs(x: string, a: string)
    requires '|' !in a
    ensures AfterBar(x + "|" + a) == |a|
  {
    var s := x + "|" + a;
    if a == [] {
      assert s[|s| - 1] == '|';
    } else {
      assert s[|s| - 1] == a[|a| - 1] && s[..|s| - 1] == x + "|" + a[..|a| - 1];
      AfterBarIs(x, a[..|a| - 1]);
    }
  }

  lemma FirstBar(a: string, b: string, x: string, y: string)
    requires '|' !in a && '|' !in b && a + ("|" + x) == b + ("|" + y)
    ensures a == b && x == y
  {
    BeforeBarIs(a, x);
    BeforeBarIs(b, y);
    var s := a + ("|" + x);
    assert a == s[..|a|] && b == s[..|b|];
    assert x == s[|a| + 1..] && y == s[|b| + 1..];
  }

  lemma LastBar(x: string, y: string, a: string, b: string)
    requires '|' !in a && '|' !in b && x + "|" + a == y + "|" + b
    ensures a == b && x == y
  {
    AfterBarIs(x, a);
    AfterBarIs(y, b);
    var s := x + "|" + a;
    assert x == s[..|s| - |a| - 1] && y == s[..|s| - |b| - 1];
    assert a == s[|s| - |a|..] && b == s[|s| - |b|..];
  }

  /** The trace part of a key. */
  function TracePart(traceId: string): string
  {
    if traceId == "" then NO_TRACE else traceId
  }

  /** Two keys are equal exactly when their functions are and their traces and bundle ids, joined by
      a bar, are one text. */
  lemma StepKeysEqual(t: string, u: string, b: string, c: string, f: Function, g: Function)
    ensures StepKey(t, b, Name(f)) == StepKey(u, c, Name(g))
      <==> f == g && TracePart(t) + "|" + b == TracePart(u) + "|" + c
  {
    if StepKey(t, b, Name(f)) == StepKey(u, c, Name(g)) {
      LastBar(TracePart(t) + "|" + b, TracePart(u) + "|" + c, Name(f), Name(g));
      NamesDiffer(f, g);
    }
  }

  /** Two traces can have a key in common exactly when one, with its bar, begins the other with its:
      then the rest of the longer one passes for part of a bundle id. */
  lemma StepKeyClashes(t: string, u: string, f: Function)
    ensures (exists b, c :: StepKey(t, b, Name(f)) == StepKey(u, c, Name(f)))
      <==> TracePart(t) + "|" <= TracePart(u) + "|" || TracePart(u) + "|" <= TracePart(t) + "|"
  {
    var p, q := TracePart(t) + "|", TracePart(u) + "|";
    if b, c :| StepKey(t, b, Name(f)) == StepKey(u, c, Name(f)) {
      StepKeysEqual(t, u, b, c, f, f);
      PrefixesOfOne(p, q, b, c);
    }
    if p <= q {
      assert q == p + q[|p|..];
      assert q + "" == q;
      StepKeysEqual(t, u, q[|p|..], "", f, f);
    }
    if q <= p {
      assert p == q + p[|q|..];
      assert p + "" == p;
      StepKeysEqual(t, u, "", p[|q|..], f, f);
    }
  }

  lemma PrefixesOfOne(p: string, q: string, b: string, c: string)
    requires p + b == q + c
    ensures p <= q || q <= p
  {
    var s := p + b;
    assert p == s[..|p|] && q == s[..|q|];
  }

  /** Keys tell apart every (trace, bundle, function) whose traces are plain; bundle ids are free. */
  lemma StepKeyInjective(t: string, u: string, b: string, c: string, f: Function, g: Function)
    requires PlainTrace(t) && PlainTrace(u)
    requires StepKey(t, b, Name(f)) == StepKey(u, c, Name(g))
    ensures t == u && b == c && f == g
  {
    StepKeysEqual(t, u, b, c, f, g);
    assert TracePart(t) + ("|" + b) == TracePart(t) + "|" + b;
    assert TracePart(u) + ("|" + c) == TracePart(u) + "|" + c;
    FirstBar(TracePart(t), TracePart(u), b, c);
  }

  // ----- plans -----

  datatype Mode = Offchain | Hybrid | Testnet | OtherMode(text: string)

  datatype OnchainStatus =
    | BlockedStructuralFailure
    | BlockedQuorum(status: QuorumStatus)
    | BlockedWindowOpen
    | BlockedDisputed
    | OperationalBlocked(reason: BlockReason)
    | OffchainSimulated
    | OffchainSimulatedAttested
    | UseBilateral
    | PendingTestnet

  datatype Plan = Plan(
    taskId: string,
    bundleId: string,
    traceId: string,
    evidenceDigest: string,
    proofHash: string,
    scopeHash: string,
    calls: seq<Call>,
    stepKeys: seq<string>,
    status: OnchainStatus,
    payoutOmitted: bool)

  /** Seller, token and amount of a settlement. */
  datatype Terms = Terms(seller: string, token: string, amountWei: int)

  function StepKeys(traceId: string, bundleId: string, calls: seq<Call>): (keys: seq<string>)
    ensures |keys| == |calls|
    ensures forall i :: 0 <= i < |calls| ==> keys[i] == StepKey(traceId, bundleId, Name(calls[i].function_))
  {
    if calls == [] then []
    else [StepKey(traceId, bundleId, Name(calls[0].function_))] + StepKeys(traceId, bundleId, calls[1..])
  }

  function SettlementBlock(controls: Option<Controls>, task: TaskContract): Option<BlockReason>
  {
    if controls.Some? then controls.value.SettlementBlockReason(task) else None
  }

  predicate PayoutPaused(controls: Option<Controls>)
  {
    controls.Some? && controls.value.pausePayout
  }

  function WithCalls(plan: Plan, terms: Terms, paused: bool): Plan
  {
    var calls := BilateralCalls(terms.seller, terms.token, terms.amountWei, plan.scopeHash, plan.proofHash, paused);
    plan.(calls := calls, stepKeys := StepKeys(plan.traceId, plan.bundleId, calls), payoutOmitted := paused)
  }

  function ModeStatus(mode: Mode, offchain: OnchainStatus): OnchainStatus
  {
    match mode
    case Offchain => offchain
    case Hybrid => UseBilateral
    case Testnet => UseBilateral
    case OtherMode(_) => PendingTestnet
  }

  method BuildOffchainPlan(mode: Mode, task: TaskContract, bundle: EvidenceBundle, proofHash: string, scopeHex: string,
                           terms: Terms, verify: VerificationResult, controls: Option<Controls>) returns (plan: Plan)
    ensures plan.taskId == task.taskId && plan.bundleId == bundle.bundleId
    ensures plan.proofHash == proofHash && plan.scopeHash == scopeHex
    ensures plan.traceId == if task.traceId != "" then task.traceId else verify.traceId
    ensures plan.evidenceDigest == verify.evidenceBundleDigest
    ensures plan.calls != [] <==> verify.structOk && SettlementBlock(controls, task).None?
    ensures plan.calls != [] ==> && plan == WithCalls(plan, terms, PayoutPaused(controls))
                                 && plan.status == ModeStatus(mode, OffchainSimulated)
    ensures plan.calls == [] ==> plan.stepKeys == []
    ensures !verify.structOk ==> plan.status == BlockedStructuralFailure
    ensures verify.structOk && SettlementBlock(controls, task).Some? ==>
      plan.status == OperationalBlocked(SettlementBlock(controls, task).value)
  {
    var traceId := if task.traceId != "" then task.traceId else verify.traceId;
    plan := Plan(task.taskId, bundle.bundleId, traceId, verify.evidenceBundleDigest, proofHash, scopeHex,
                 [], [], BlockedStructuralFailure, false);
    if !verify.structOk {
      return;
    }
    if controls.Some? {
      var block := controls.value.SettlementBlockReason(task);
      if block.Some? {
        plan := plan.(status := OperationalBlocked(block.value));
        return;
      }
    }
    PausedIsPrefix(terms.seller, terms.token, terms.amountWei, scopeHex, proofHash);
    plan := WithCalls(plan, terms, PayoutPaused(controls));
    plan := plan.(status := ModeStatus(mode, OffchainSimulated));
  }

  datatype QuorumStatus = Collecting | AttestedOk | AttestedFail | InsufficientSignatures

  datatype WindowStatus = WindowPending | WindowOpen | WindowClosed | WindowDisputed

  /** An attested plan recommends calls exactly for an OK quorum whose challenge window is neither
      open nor disputed; a window that is still pending lets the plan through. */
  method BuildAttestedPlan(mode: Mode, task: TaskContract, bundle: EvidenceBundle, proofHash: string, scopeHex: string,
                           quorum: QuorumStatus, quorumEvidence: string, window: WindowStatus, terms: Terms,
                           controls: Option<Controls>, verify: Option<VerificationResult>) returns (plan: Plan)
    ensures plan.calls != [] <==>
      && quorum == AttestedOk && (window == WindowPending || window == WindowClosed)
      && SettlementBlock(controls, task).None?
    ensures plan.calls != [] ==> && plan == WithCalls(plan, terms, PayoutPaused(controls))
                                 && plan.status == ModeStatus(mode, OffchainSimulatedAttested)
    ensures plan.calls == [] ==> plan.stepKeys == []
    ensures quorum != AttestedOk ==> plan.status == BlockedQuorum(quorum)
    ensures quorum == AttestedOk && window == WindowOpen ==> plan.status == BlockedWindowOpen
    ensures quorum == AttestedOk && window == WindowDisputed ==> plan.status == BlockedDisputed
    ensures quorum == AttestedOk && window != WindowOpen && window != WindowDisputed
            && SettlementBlock(controls, task).Some? ==>
      plan.status == OperationalBlocked(SettlementBlock(controls, task).value)
    ensures plan.taskId == task.taskId && plan.bundleId == bundle.bundleId
    ensures plan.proofHash == proofHash && plan.scopeHash == scopeHex
    ensures plan.traceId ==
      if task.traceId != "" then task.traceId else if verify.Some? then verify.value.traceId else ""
    ensures plan.evidenceDigest == if verify.Some? then verify.value.evidenceBundleDigest else quorumEvidence
  {
    var traceId := if task.traceId != "" then task.traceId else if verify.Some? then verify.value.traceId else "";
    var digest := if verify.Some? then verify.value.evidenceBundleDigest else quorumEvidence;
    plan := Plan(task.taskId, bundle.bundleId, traceId, digest, proofHash, scopeHex, [], [], BlockedQuorum(quorum), false);
    if quorum != AttestedOk {
      return;
    }
    if window == WindowOpen {
      plan := plan.(status := BlockedWindowOpen);
      return;
    }
    if window == WindowDisputed {
      plan := plan.(status := BlockedDisputed);
      return;
    }
    if controls.Some? {
      var block := controls.value.SettlementBlockReason(task);
      if block.Some? {
        plan := plan.(status := OperationalBlocked(block.value));
        return;
      }
    }
    PausedIsPrefix(terms.seller, terms.token, terms.amountWei, scopeHex, proofHash);
    plan := WithCalls(plan, terms, PayoutPaused(controls));
    plan := plan.(status := ModeStatus(mode, OffchainSimulatedAttested));
  }

  // ----- the idempotency book -----

  /** The keys of `keys` that are let through, in order, when `seen` have been already. */
  function Fresh(keys: seq<string>, seen: set<string>): seq<string>
  {
    if keys == [] then []
    else if keys[0] in seen then Fresh(keys[1..], seen)
    else [keys[0]] + Fresh(keys[1..], seen + {keys[0]})
  }

  function KeySet(keys: seq<string>): set<string>
  {
    set k | k in keys
  }

  class SettlementIdempotencyBook {
    var seen: set<string>

    constructor ()
      ensures seen == {}
    {
      seen := {};
    }

    method TryOnce(key: string) returns (first: bool)
      modifies this
      ensures first <==> key !in old(seen)
      ensures seen == old(seen) + {key}
    {
      if key in seen {
        return false;
      }
      seen := seen + {key};
      first := true;
    }

    /** Submits keys in turn and dispatches those the book lets through. */
    method Dispatch(keys: seq<string>) returns (dispatched: seq<string>)
      modifies this
      ensures dispatched == Fresh(keys, old(seen))
      ensures seen == old(seen) + KeySet(keys)
    {
      dispatched := [];
      for i := 0 to |keys|
        invariant dispatched + Fresh(keys[i..], seen) == Fresh(keys, old(seen))
        invariant seen == old(seen) + KeySet(keys[..i])
      {
        assert keys[..i + 1] == keys[..i] + [keys[i]];
        assert keys[i..][1..] == keys[i + 1..];
        var first := TryOnce(keys[i]);
        assert !first ==> seen == old(seen) + KeySet(keys[..i]);
        if first {
          dispatched := dispatched + [keys[i]];
        }
      }
      assert keys[..|keys|] == keys;
    }
  }

  // ----- replaying plans -----

  /** The keys of one plan for a (trace, bundle): the full list or, when paused, its first three. */
  function PlanKeys(traceId: string, bundleId: string, paused: bool): seq<string>
  {
    var keys := KeysFor(traceId, bundleId, ALL_FUNCTIONS);
    if paused then keys[..3] else keys
  }

  function KeysFor(traceId: string, bundleId: string, fs: seq<Function>): (keys: seq<string>)
    ensures |keys| == |fs| && forall i :: 0 <= i < |fs| ==> keys[i] == StepKey(traceId, bundleId, Name(fs[i]))
  {
    if fs == [] then [] else [StepKey(traceId, bundleId, Name(fs[0]))] + KeysFor(traceId, bundleId, fs[1..])
  }

  /** The keys a plan with calls carries. */
  lemma PlanCarries(plan: Plan, terms: Terms, paused: bool)
    ensures WithCalls(plan, terms, paused).stepKeys == PlanKeys(plan.traceId, plan.bundleId, paused)
  {
    PausedIsPrefix(terms.seller, terms.token, terms.amountWei, plan.scopeHash, plan.proofHash);
    var keys := WithCalls(plan, terms, paused).stepKeys;
    var full := BilateralCalls(terms.seller, terms.token, terms.amountWei, plan.scopeHash, plan.proofHash, false);
    var expected := PlanKeys(plan.traceId, plan.bundleId, paused);
    assert |Functions(full)| == 5;
    forall i | 0 <= i < |keys| ensures keys[i] == expected[i] {
      assert Functions(full)[i] == ALL_FUNCTIONS[i];
    }
  }

  /** One submission: a plan for some (trace, bundle), paused or full. */
  datatype Submission = Submission(traceId: string, bundleId: string, paused: bool)

  function AllKeys(subs: seq<Submission>): seq<string>
  {
    if subs == [] then []
    else
      var last := subs[|subs| - 1];
      AllKeys(subs[..|subs| - 1]) + PlanKeys(last.traceId, last.bundleId, last.paused)
  }

  /** The dispatched keys that belong to one (trace, bundle). */
  function Only(keys: seq<string>, mine: set<string>): seq<string>
  {
    if keys == [] then []
    else (if keys[0] in mine then [keys[0]] else []) + Only(keys[1..], mine)
  }

  /** What a (trace, bundle) contributes to its keys; for plain traces it tells the two apart
      (`StepKeyInjective`). */
  function Joined(traceId: string, bundleId: string): string
  {
    TracePart(traceId) + "|" + bundleId
  }

  /** How many of the five steps the submissions so far have asked for. */
  function Stage(subs: seq<Submission>, traceId: string, bundleId: string): nat
  {
    if subs == [] then 0
    else
      var last := subs[|subs| - 1];
      var before := Stage(subs[..|subs| - 1], traceId, bundleId);
      if Joined(last.traceId, last.bundleId) != Joined(traceId, bundleId) then before
      else if last.paused && before < 3 then 3 else if last.paused then before else 5
  }

  lemma {:induction false} FreshConcat(a: seq<string>, b: seq<string>, seen: set<string>)
    ensures Fresh(a + b, seen) == Fresh(a, seen) + Fresh(b, seen + KeySet(a))
  {
    if a == [] {
      assert a + b == b && seen + KeySet(a) == seen;
    } else {
      assert (a + b)[1..] == a[1..] + b;
      assert a == [a[0]] + a[1..];
      assert KeySet(a) == {a[0]} + KeySet(a[1..]);
      if a[0] in seen {
        FreshConcat(a[1..], b, seen);
        assert seen + KeySet(a[1..]) == seen + KeySet(a);
      } else {
        FreshConcat(a[1..], b, seen + {a[0]});
        assert seen + {a[0]} + KeySet(a[1..]) == seen + KeySet(a);
      }
    }
  }

  lemma {:induction false} OnlyConcat(a: seq<string>, b: seq<string>, mine: set<string>)
    ensures Only(a + b, mine) == Only(a, mine) + Only(b, mine)
  {
    if a == [] {
      assert a + b == b;
    } else {
      assert (a + b)[1..] == a[1..] + b;
      OnlyConcat(a[1..], b, mine);
    }
  }

  /** Fresh keys are distinct, new, and exactly the new ones among those submitted. */
  lemma {:induction false} FreshOnce(keys: seq<string>, seen: set<string>)
    ensures forall k :: k in Fresh(keys, seen) <==> k in keys && k !in seen
    ensures forall i, j :: 0 <= i < j < |Fresh(keys, seen)| ==> Fresh(keys, seen)[i] != Fresh(keys, seen)[j]
  {
    if keys != [] {
      assert keys == [keys[0]] + keys[1..];
      FreshOnce(keys[1..], if keys[0] in seen then seen else seen + {keys[0]});
    }
  }

  lemma {:induction false} FreshAllNew(keys: seq<string>, seen: set<string>)
    requires DistinctStrings(keys) && forall k :: k in keys ==> k !in seen
    ensures Fresh(keys, seen) == keys
  {
    if keys != [] {
      assert keys == [keys[0]] + keys[1..];
      FreshAllNew(keys[1..], seen + {keys[0]});
    }
  }

  lemma {:induction false} FreshNoneNew(keys: seq<string>, seen: set<string>)
    requires forall k :: k in keys ==> k in seen
    ensures Fresh(keys, seen) == []
  {
    if keys != [] {
      assert keys == [keys[0]] + keys[1..];
      FreshNoneNew(keys[1..], seen);
    }
  }

  /** Of a list whose first `s` keys are seen, submitting the first `m` lets through what lies between. */
  lemma FreshSlice(keys: seq<string>, s: nat, m: nat, seen: set<string>)
    requires DistinctStrings(keys) && s <= |keys| && m <= |keys|
    requires forall i :: 0 <= i < |keys| ==> (keys[i] in seen <==> i < s)
    ensures Fresh(keys[..m], seen) == if m <= s then [] else keys[s..m]
  {
    if m <= s {
      FreshNoneNew(keys[..m], seen);
    } else {
      assert keys[..m] == keys[..s] + keys[s..m];
      FreshConcat(keys[..s], keys[s..m], seen);
      FreshNoneNew(keys[..s], seen);
      FreshAllNew(keys[s..m], seen + KeySet(keys[..s]));
    }
  }

  lemma {:induction false} OnlyMine(keys: seq<string>, mine: set<string>)
    ensures (forall k :: k in keys ==> k in mine) ==> Only(keys, mine) == keys
    ensures (forall k :: k in keys ==> k !in mine) ==> Only(keys, mine) == []
  {
    if keys != [] {
      assert keys == [keys[0]] + keys[1..];
      OnlyMine(keys[1..], mine);
    }
  }

  lemma PlanKeysDistinct(traceId: string, bundleId: string)
    ensures DistinctStrings(PlanKeys(traceId, bundleId, false)) && |PlanKeys(traceId, bundleId, false)| == 5
  {
    var keys := PlanKeys(traceId, bundleId, false);
    forall i, j | 0 <= i < j < |keys| ensures keys[i] != keys[j] {
      StepKeysEqual(traceId, traceId, bundleId, bundleId, ALL_FUNCTIONS[i], ALL_FUNCTIONS[j]);
    }
  }

  lemma PlanKeysApart(sub: Submission, traceId: string, bundleId: string, k: string)
    requires Joined(sub.traceId, sub.bundleId) != Joined(traceId, bundleId)
    requires k in PlanKeys(sub.traceId, sub.bundleId, sub.paused)
    ensures k !in PlanKeys(traceId, bundleId, false)
  {
    var theirs, mine := PlanKeys(sub.traceId, sub.bundleId, false), PlanKeys(traceId, bundleId, false);
    assert k in theirs;
    if k in mine {
      var i :| 0 <= i < |theirs| && theirs[i] == k;
      var j :| 0 <= j < |mine| && mine[j] == k;
      StepKeysEqual(sub.traceId, traceId, sub.bundleId, bundleId, ALL_FUNCTIONS[i], ALL_FUNCTIONS[j]);
    }
  }

  lemma PlanKeysSame(sub: Submission, traceId: string, bundleId: string)
    requires Joined(sub.traceId, sub.bundleId) == Joined(traceId, bundleId)
    ensures PlanKeys(sub.traceId, sub.bundleId, sub.paused) == PlanKeys(traceId, bundleId, sub.paused)
  {
    var theirs, mine := PlanKeys(sub.traceId, sub.bundleId, false), PlanKeys(traceId, bundleId, false);
    forall i | 0 <= i < |theirs| ensures theirs[i] == mine[i] {
      StepKeysEqual(sub.traceId, traceId, sub.bundleId, bundleId, ALL_FUNCTIONS[i], ALL_FUNCTIONS[i]);
    }
  }

  lemma {:induction false} StageSeen(subs: seq<Submission>, traceId: string, bundleId: string)
    ensures Stage(subs, traceId, bundleId) <= 5
    ensures |PlanKeys(traceId, bundleId, false)| == 5
    ensures forall i :: 0 <= i < 5 ==>
      (PlanKeys(traceId, bundleId, false)[i] in AllKeys(subs) <==> i < Stage(subs, traceId, bundleId))
  {
    var mine := PlanKeys(traceId, bundleId, false);
    PlanKeysDistinct(traceId, bundleId);
    if subs != [] {
      var last, before := subs[|subs| - 1], subs[..|subs| - 1];
      StageSeen(before, traceId, bundleId);
      var added := PlanKeys(last.traceId, last.bundleId, last.paused);
      forall i | 0 <= i < 5 ensures mine[i] in AllKeys(subs) <==> i < Stage(subs, traceId, bundleId) {
        assert mine[i] in AllKeys(subs) <==> mine[i] in AllKeys(before) || mine[i] in added;
        if Joined(last.traceId, last.bundleId) != Joined(traceId, bundleId) {
          if mine[i] in added {
            PlanKeysApart(last, traceId, bundleId, mine[i]);
          }
        } else {
          PlanKeysSame(last, traceId, bundleId);
          assert added == if last.paused then mine[..3] else mine;
          assert mine[i] in added <==> i < |added|;
        }
      }
    }
  }

  /** Replaying any mix of paused and full plans, of any traces and bundles, through one book
      dispatches each step of a (trace, bundle) once and in canonical order: the first three steps if
      only paused plans were submitted, all five as soon as a full one was. Pairs that share their
      joined text are one to the book. */
  lemma {:induction false} ReplayDispatchesOnce(subs: seq<Submission>, traceId: string, bundleId: string)
    ensures Stage(subs, traceId, bundleId) <= |PlanKeys(traceId, bundleId, false)|
    ensures Only(Fresh(AllKeys(subs), {}), KeySet(PlanKeys(traceId, bundleId, false)))
         == PlanKeys(traceId, bundleId, false)[..Stage(subs, traceId, bundleId)]
  {
    hide PlanKeys, KeySet, Fresh, Only, AllKeys, Stage, Joined;
    var mine := PlanKeys(traceId, bundleId, false);
    StageSeen(subs, traceId, bundleId);
    if subs == [] {
      NothingSubmitted(traceId, bundleId, KeySet(mine));
    } else {
      var last, before := subs[|subs| - 1], subs[..|subs| - 1];
      ReplayDispatchesOnce(before, traceId, bundleId);
      AppendSubmission(before, last, KeySet(mine));
      LateKeys(before, last, traceId, bundleId);
      assert subs == before + [last];
      var s, n := Stage(before, traceId, bundleId), Stage(subs, traceId, bundleId);
      assert mine[..s] + mine[s..n] == mine[..n];
    }
  }

  lemma NothingSubmitted(traceId: string, bundleId: string, mine: set<string>)
    ensures Stage([], traceId, bundleId) == 0 && Only(Fresh(AllKeys([]), {}), mine) == []
  {}

  lemma AppendSubmission(before: seq<Submission>, last: Submission, mine: set<string>)
    ensures var added := PlanKeys(last.traceId, last.bundleId, last.paused);
      Only(Fresh(AllKeys(before + [last]), {}), mine)
        == Only(Fresh(AllKeys(before), {}), mine) + Only(Fresh(added, KeySet(AllKeys(before))), mine)
  {
    var added := PlanKeys(last.traceId, last.bundleId, last.paused);
    assert (before + [last])[..|before|] == before;
    FreshConcat(AllKeys(before), added, {});
    assert {} + KeySet(AllKeys(before)) == KeySet(AllKeys(before));
    OnlyConcat(Fresh(AllKeys(before), {}), Fresh(added, KeySet(AllKeys(before))), mine);
  }

  lemma LateKeys(before: seq<Submission>, last: Submission, traceId: string, bundleId: string)
    ensures var mine := PlanKeys(traceId, bundleId, false);
      var s, n := Stage(before, traceId, bundleId), Stage(before + [last], traceId, bundleId);
      && s <= n <= |mine|
      && Only(Fresh(PlanKeys(last.traceId, last.bundleId, last.paused), KeySet(AllKeys(before))), KeySet(mine))
         == mine[s..n]
  {
    hide Joined, Name, StepKey;
    var mine, seen := PlanKeys(traceId, bundleId, false), KeySet(AllKeys(before));
    var added := PlanKeys(last.traceId, last.bundleId, last.paused);
    StageSeen(before, traceId, bundleId);
    assert (before + [last])[..|before|] == before;
    FreshOnce(added, seen);
    if Joined(last.traceId, last.bundleId) != Joined(traceId, bundleId) {
      forall k | k in Fresh(added, seen) ensures k !in KeySet(mine) {
        PlanKeysApart(last, traceId, bundleId, k);
      }
      OnlyMine(Fresh(added, seen), KeySet(mine));
    } else {
      PlanKeysDistinct(traceId, bundleId);
      PlanKeysSame(last, traceId, bundleId);
      var m := if last.paused then 3 else 5;
      assert added == mine[..m];
      FreshSlice(mine, Stage(before, traceId, bundleId), m, seen);
      OnlyMine(Fresh(added, seen), KeySet(mine));
    }
  }
}
