/**
 The stress harness: honest chains of any length, five attacks on them, the detectors, and the run
 over all agents that bundles, verifies and plans settlement for those that pass.
 What the pseudo-random generator chooses for each agent is an input.
 */
module StressRunner {
  import opened Text
  import opened Sorting
  import opened Schemas
  import opened ReceiptStore
  import opened EvidenceAdapter
  import opened Verification
  import opened Recovery
  import opened Settlement
  import opened StressDetectors
  import opened StressInspection

  /** The digests, SHA-256 of plain texts, and the clock's text format. */
  datatype Runtime = Runtime(d: Digester, sha: string -> string, clock: Clock)

  // ----- honest chains -----

  function AgentName(seed: int, agent: nat): string
  {
    Decimal(seed) + "-a" + Decimal(agent)
  }

  function HonestTask(seed: int, agent: nat): (t: TaskContract)
    ensures t.traceId != "" && t.taskId != "" && t.agentId != "" && t.runtimeId != ""
  {
    TaskContract("stress-" + AgentName(seed, agent), "agent-" + Decimal(agent), "stress-runtime", "stress",
                 TASK_SCHEMA, "trace-stress-" + AgentName(seed, agent))
  }

  function IdStem(seed: int, agent: nat): (s: string)
    ensures s != ""
  {
    "r-" + AgentName(seed, agent) + "-s"
  }

  function ReceiptId(seed: int, agent: nat, step: int): (id: string)
    ensures id != ""
  {
    IdStem(seed, agent) + Decimal(step)
  }

  lemma ReceiptIdInjective(seed: int, agent: nat, i: int, j: int)
    requires ReceiptId(seed, agent, i) == ReceiptId(seed, agent, j)
    ensures i == j
  {
    var n := |IdStem(seed, agent)|;
    assert ReceiptId(seed, agent, i)[n..] == Decimal(i) && ReceiptId(seed, agent, j)[n..] == Decimal(j);
    DecimalInjective(i, j);
  }

  /** Seconds after the base time. */
  function Seconds(agent: nat, step: nat, offset: nat): nat
  {
    (agent * 17 + step * 3) * 60 + offset
  }

  function Iso(clock: Clock, agent: nat, step: nat, offset: nat): string
  {
    clock.format(Seconds(agent, step, offset))
  }

  function HonestReceipt(rt: Runtime, seed: int, agent: nat, step: nat, prev: string): ExecutionReceipt
  {
    var task := HonestTask(seed, agent);
    var name := Decimal(seed) + "-" + Decimal(agent) + "-" + Decimal(step);
    ExecutionReceipt(
      ReceiptId(seed, agent, step), task.taskId, task.agentId, task.runtimeId, step, "tool_" + Decimal(step),
      rt.sha("in-" + name), rt.sha("out-" + name), Iso(rt.clock, agent, step, 0), Iso(rt.clock, agent, step, 5 + step),
      100 + step * 7, "ok", "", [], "", "", RECEIPT_SCHEMA, prev, task.traceId)
  }

  function PrevHash(d: Digester, rs: seq<ExecutionReceipt>): string
  {
    if rs == [] then "" else d.record(rs[|rs| - 1])
  }

  /** The honest chain of `n` steps. */
  function Honest(rt: Runtime, seed: int, agent: nat, n: nat): (rs: seq<ExecutionReceipt>)
    ensures |rs| == n
  {
    if n == 0 then []
    else
      var before := Honest(rt, seed, agent, n - 1);
      before + [HonestReceipt(rt, seed, agent, n - 1, PrevHash(rt.d, before))]
  }

  method BuildHonestReceipts(rt: Runtime, agent: nat, seed: int, steps: nat)
    returns (task: TaskContract, receipts: seq<ExecutionReceipt>)
    ensures task == HonestTask(seed, agent) && receipts == Honest(rt, seed, agent, steps)
  {
    task := HonestTask(seed, agent);
    receipts := [];
    var prevHash := "";
    for step := 0 to steps
      invariant receipts == Honest(rt, seed, agent, step) && prevHash == PrevHash(rt.d, receipts)
    {
      var r := HonestReceipt(rt, seed, agent, step, prevHash);
      receipts := receipts + [r];
      prevHash := rt.d.record(r);
    }
  }

  lemma {:induction false} HonestAt(rt: Runtime, seed: int, agent: nat, n: nat, i: nat)
    requires i < n
    ensures var h := Honest(rt, seed, agent, n);
      h[i] == HonestReceipt(rt, seed, agent, i, if i == 0 then "" else rt.d.record(h[i - 1]))
  {
    hide HonestReceipt;
    if i < n - 1 {
      HonestAt(rt, seed, agent, n - 1, i);
    }
  }

  // ----- attacks -----

  datatype Attack = NoAttack | DuplicateId | Replay(salt: nat) | TimeoutSwap | Malformed | ForgedChain

  const FORGED_PREV := "0xdededededededededededededededededededededededededededededededede"

  function Clone(r: ExecutionReceipt, salt: nat): ExecutionReceipt
  {
    r.(receiptId := r.receiptId + "-replayclone-" + Decimal(salt))
  }

  function Swapped(r: ExecutionReceipt): ExecutionReceipt
  {
    r.(startedAt := r.endedAt, endedAt := r.startedAt)
  }

  function Attacked(rs: seq<ExecutionReceipt>, attack: Attack): seq<ExecutionReceipt>
  {
    if rs == [] then rs
    else
      var last := |rs| - 1;
      match attack
      case NoAttack => rs
      case DuplicateId => rs + [rs[0]]
      case Replay(salt) => rs + [Clone(rs[0], salt)]
      case TimeoutSwap => rs[last := Swapped(rs[last])]
      case Malformed => rs[last := rs[last].(status := "BAD")]
      case ForgedChain => if |rs| > 1 then rs[1 := rs[1].(prevReceiptHash := FORGED_PREV)] else rs
  }

  class ReceiptList {
    var items: seq<ExecutionReceipt>

    constructor (items: seq<ExecutionReceipt>)
      ensures this.items == items
    {
      this.items := items;
    }

    method Append(r: ExecutionReceipt)
      modifies this
      ensures items == old(items) + [r]
    {
      items := items + [r];
    }

    method Update(i: nat, r: ExecutionReceipt)
      requires i < |items|
      modifies this
      ensures items == old(items)[i := r]
    {
      items := items[i := r];
    }
  }

  method ApplyAttack(receipts: ReceiptList, attack: Attack)
    modifies receipts
    ensures receipts.items == Attacked(old(receipts.items), attack)
  {
    if attack == NoAttack || receipts.items == [] {
      return;
    }
    var last := |receipts.items| - 1;
    match attack {
      case DuplicateId =>
        receipts.Append(receipts.items[0]);
      case Replay(salt) =>
        receipts.Append(Clone(receipts.items[0], salt));
      case TimeoutSwap =>
        receipts.Update(last, Swapped(receipts.items[last]));
      case Malformed =>
        receipts.Update(last, receipts.items[last].(status := "BAD"));
      case ForgedChain =>
        if |receipts.items| > 1 {
          receipts.Update(1, receipts.items[1].(prevReceiptHash := FORGED_PREV));
        }
      case NoAttack =>
    }
  }

  /** The attack changes the chain: it is not empty, and a forged link needs a second receipt. */
  predicate Strikes(attack: Attack, n: nat)
  {
    attack != NoAttack && n >= 1 && (attack == ForgedChain ==> n >= 2)
  }

  /** Attacks that add a receipt. */
  predicate Adds(attack: Attack)
  {
    attack == DuplicateId || attack.Replay?
  }

  // ----- what the detectors find in an attacked chain -----

  /** Every receipt's id is that of its step, and no two different receipts share a step. */
  ghost predicate Named(rs: seq<ExecutionReceipt>, seed: int, agent: nat)
  {
    && (forall i :: 0 <= i < |rs| ==> rs[i].receiptId == ReceiptId(seed, agent, rs[i].stepIndex))
    && (forall i, j :: 0 <= i < |rs| && 0 <= j < |rs| && rs[i].stepIndex == rs[j].stepIndex ==> rs[i] == rs[j])
  }

  lemma HonestSteps(rt: Runtime, seed: int, agent: nat, n: nat)
    ensures var h := Honest(rt, seed, agent, n);
      forall i :: 0 <= i < n ==> h[i].stepIndex == i && h[i].receiptId == ReceiptId(seed, agent, i)
  {
    hide Honest, ReceiptId;
    forall i | 0 <= i < n
      ensures Honest(rt, seed, agent, n)[i].stepIndex == i
           && Honest(rt, seed, agent, n)[i].receiptId == ReceiptId(seed, agent, i)
    {
      HonestAt(rt, seed, agent, n, i);
    }
  }

  lemma AttackedNamed(rt: Runtime, seed: int, agent: nat, n: nat, attack: Attack)
    requires !attack.Replay?
    ensures Named(Attacked(Honest(rt, seed, agent, n), attack), seed, agent)
  {
    hide Honest, ReceiptId;
    HonestSteps(rt, seed, agent, n);
  }

  /** Two receipts that differ in more than the id have one body digest. */
  ghost predicate BodyCollision(d: Digester, rs: seq<ExecutionReceipt>)
  {
    exists i, j :: 0 <= i < |rs| && 0 <= j < |rs| && Body(rs[i]) != Body(rs[j]) && d.body(rs[i]) == d.body(rs[j])
  }

  /** With digests of the canonical texts, such a pair is a collision of the hash function. */
  lemma BodyCollisionIsHashCollision(h: Hasher, rs: seq<ExecutionReceipt>)
    ensures BodyCollision(CanonicalDigests(h), rs) <==>
      exists i, j :: 0 <= i < |rs| && 0 <= j < |rs| && Collide(h, BodyBytes(rs[i]), BodyBytes(rs[j]))
  {
    hide BodyBytes, CanonicalDigests, Body;
    forall i, j | 0 <= i < |rs| && 0 <= j < |rs|
      ensures Body(rs[i]) != Body(rs[j]) && CanonicalDigests(h).body(rs[i]) == CanonicalDigests(h).body(rs[j])
          <==> Collide(h, BodyBytes(rs[i]), BodyBytes(rs[j]))
    {
      RecordDigestIs(h, rs[i]);
      RecordDigestIs(h, rs[j]);
      BodyBytesFaithful(rs[i], rs[j]);
    }
  }

  /** When ids tell receipts apart, only a body collision looks like a replay. */
  lemma NamedReplays(d: Digester, rs: seq<ExecutionReceipt>, seed: int, agent: nat)
    requires Named(rs, seed, agent)
    ensures |ReplayedBodies(d, rs)| == 0 <==> !BodyCollision(d, rs)
  {
    hide ReplayedBodies, ReceiptId;
    NoReplay(d, rs);
    if i: nat :| i < |rs| && Replayed(d, rs, i) {
      var j :| 0 <= j < |rs| && d.body(rs[j]) == d.body(rs[i]) && rs[j].receiptId != rs[i].receiptId;
      assert Body(rs[i]).stepIndex != Body(rs[j]).stepIndex;
    }
    if BodyCollision(d, rs) {
      var i, j :| 0 <= i < |rs| && 0 <= j < |rs| && Body(rs[i]) != Body(rs[j]) && d.body(rs[i]) == d.body(rs[j]);
      if rs[i].receiptId == rs[j].receiptId {
        ReceiptIdInjective(seed, agent, rs[i].stepIndex, rs[j].stepIndex);
      }
      assert Replayed(d, rs, i);
    }
  }

  /** The clone repeats the first body under another id. */
  lemma CloneReplays(d: Digester, rs: seq<ExecutionReceipt>, salt: nat)
    requires rs != []
    ensures |ReplayedBodies(d, Attacked(rs, Replay(salt)))| > 0
  {
    var list := Attacked(rs, Replay(salt));
    var n := |rs|;
    assert Body(list[n]) == Body(list[0]);
    assert |list[n].receiptId| > |list[0].receiptId|;
    assert Replayed(d, list, n);
    NoReplay(d, list);
  }

  /** Replays: the clone is always found, and nothing else is unless two bodies collide. */
  lemma ReplaysFound(rt: Runtime, seed: int, agent: nat, n: nat, attack: Attack)
    ensures var rs := Attacked(Honest(rt, seed, agent, n), attack);
      |ReplayedBodies(rt.d, rs)| == 0 <==> !(attack.Replay? && n >= 1) && !BodyCollision(rt.d, rs)
  {
    var h := Honest(rt, seed, agent, n);
    if attack.Replay? && n >= 1 {
      CloneReplays(rt.d, h, attack.salt);
    } else {
      var plain := if attack.Replay? then NoAttack else attack;
      assert Attacked(h, attack) == Attacked(h, plain);
      AttackedNamed(rt, seed, agent, n, plain);
      NamedReplays(rt.d, Attacked(h, plain), seed, agent);
    }
  }

  lemma HonestDistinct(rt: Runtime, seed: int, agent: nat, n: nat)
    ensures DistinctIds(Honest(rt, seed, agent, n))
  {
    var h := Honest(rt, seed, agent, n);
    forall i, j | 0 <= i < j < n ensures h[i].receiptId != h[j].receiptId {
      HonestAt(rt, seed, agent, n, i);
      HonestAt(rt, seed, agent, n, j);
      if ReceiptId(seed, agent, i) == ReceiptId(seed, agent, j) {
        ReceiptIdInjective(seed, agent, i, j);
      }
    }
  }

  /** The clone's id is not that of any step: a step number has no dash after its first digit. */
  lemma CloneIdDiffers(stem: string, i: nat, salt: nat)
    ensures stem + Decimal(i) != stem + Decimal(0) + "-replayclone-" + Decimal(salt)
  {
    var k, a, b := |stem|, stem + Decimal(i), stem + Decimal(0) + "-replayclone-" + Decimal(salt);
    assert a[k..] == Decimal(i);
    assert b[k + 1] == '-' && b[k] == '0';
    if |Decimal(i)| > 1 {
      assert a[k + 1] == Decimal(i)[1];
    }
  }

  lemma CloneIdNew(rt: Runtime, seed: int, agent: nat, n: nat, salt: nat)
    requires n >= 1
    ensures Clone(Honest(rt, seed, agent, n)[0], salt).receiptId !in IdSet(Honest(rt, seed, agent, n))
  {
    hide Honest, IdStem, Decimal;
    var h := Honest(rt, seed, agent, n);
    HonestSteps(rt, seed, agent, n);
    forall r | r in h ensures r.receiptId != Clone(h[0], salt).receiptId {
      var i :| 0 <= i < n && h[i] == r;
      CloneIdDiffers(IdStem(seed, agent), i, salt);
    }
  }

  lemma SameIdsUpdate(rs: seq<ExecutionReceipt>, k: nat, r: ExecutionReceipt)
    requires k < |rs| && r.receiptId == rs[k].receiptId
    ensures DistinctIds(rs) ==> DistinctIds(rs[k := r])
  {}

  lemma AppendedIds(rs: seq<ExecutionReceipt>, r: ExecutionReceipt)
    ensures IdSet(rs + [r]) == IdSet(rs) + {r.receiptId}
  {}

  /** Redundant ids: exactly one, and only after `DuplicateId`. */
  lemma DuplicatesFound(rt: Runtime, seed: int, agent: nat, n: nat, attack: Attack)
    ensures DuplicateExtra(Attacked(Honest(rt, seed, agent, n), attack))
         == if attack == DuplicateId && n >= 1 then 1 else 0
  {
    hide IdSet, DistinctIds, Honest;
    var h := Honest(rt, seed, agent, n);
    var rs := Attacked(h, attack);
    HonestDistinct(rt, seed, agent, n);
    IdCardinality(h);
    IdCardinality(rs);
    if n >= 1 {
      match attack {
        case NoAttack =>
        case DuplicateId =>
          AppendedIds(h, h[0]);
          FirstIdIn(h);
          assert IdSet(rs) == IdSet(h);
        case Replay(salt) =>
          CloneIdNew(rt, seed, agent, n, salt);
          AppendedIds(h, Clone(h[0], salt));
        case TimeoutSwap =>
          SameIdsUpdate(h, n - 1, Swapped(h[n - 1]));
        case Malformed =>
          SameIdsUpdate(h, n - 1, h[n - 1].(status := "BAD"));
        case ForgedChain =>
          if n > 1 {
            SameIdsUpdate(h, 1, h[1].(prevReceiptHash := FORGED_PREV));
          }
      }
    }
  }

  lemma FirstIdIn(rs: seq<ExecutionReceipt>)
    requires rs != []
    ensures rs[0].receiptId in IdSet(rs)
  {}

  // ----- schema errors of an attacked chain -----

  lemma HonestTimes(rt: Runtime, seed: int, agent: nat, step: nat, prev: string)
    ensures var r := HonestReceipt(rt, seed, agent, step, prev);
      TimeErrors(rt.clock, r) == [] && TimeErrors(rt.clock, Swapped(r)) == [TimeoutOrder]
  {
    var r := HonestReceipt(rt, seed, agent, step, prev);
    assert rt.clock.parse(r.startedAt) == Some(Seconds(agent, step, 0));
    assert rt.clock.parse(r.endedAt) == Some(Seconds(agent, step, 5 + step));
  }

  /** A receipt with nothing wrong but, possibly, its times. */
  predicate CleanButTimes(r: ExecutionReceipt)
  {
    && r.schemaVersion == RECEIPT_SCHEMA && r.status == "ok" && r.receiptId != "" && r.toolName != ""
    && r.stepIndex >= 0 && r.taskId != "" && r.agentId != "" && r.runtimeId != "" && r.durationMs >= 0
  }

  lemma TimesIgnoreStatus(clock: Clock, r: ExecutionReceipt)
    ensures TimeErrors(clock, r.(status := "BAD")) == TimeErrors(clock, r)
  {}

  lemma OnlyTimes(clock: Clock, r: ExecutionReceipt)
    requires CleanButTimes(r)
    ensures ReceiptSchemaErrors(clock, r) == TimeErrors(clock, r)
    ensures ReceiptSchemaErrors(clock, r.(status := "BAD")) == [MalformedStatus] + TimeErrors(clock, r)
  {
    hide TimeErrors;
    var bad := r.(status := "BAD");
    assert !KnownStatus(bad.status);
    TimesIgnoreStatus(clock, r);
  }

  lemma HonestClean(rt: Runtime, seed: int, agent: nat, n: nat, i: nat)
    requires i < n
    ensures var r := Honest(rt, seed, agent, n)[i];
      && r.receiptId != ""
      && ReceiptSchemaErrors(rt.clock, r) == []
      && ReceiptSchemaErrors(rt.clock, Swapped(r)) == [TimeoutOrder]
      && ReceiptSchemaErrors(rt.clock, r.(status := "BAD")) == [MalformedStatus]
      && ReceiptSchemaErrors(rt.clock, r.(prevReceiptHash := FORGED_PREV)) == []
  {
    hide Honest, ReceiptSchemaErrors, TimeErrors, ReceiptId, Iso;
    HonestAt(rt, seed, agent, n, i);
    var r := Honest(rt, seed, agent, n)[i];
    HonestTimes(rt, seed, agent, i, r.prevReceiptHash);
    HonestTimes(rt, seed, agent, i, FORGED_PREV);
    assert r.toolName[0] == 't';
    OnlyTimes(rt.clock, r);
    OnlyTimes(rt.clock, Swapped(r));
    OnlyTimes(rt.clock, r.(prevReceiptHash := FORGED_PREV));
  }

  lemma {:induction false} AllClean(clock: Clock, rs: seq<ExecutionReceipt>, n: nat)
    requires n <= |rs| && forall i :: 0 <= i < n ==> ReceiptSchemaErrors(clock, rs[i]) == []
    ensures TimeoutsIn(clock, rs, n) == 0 && SchemaErrorsIn(clock, rs, n) == 0
  {
    hide ReceiptSchemaErrors;
    if n > 0 {
      AllClean(clock, rs, n - 1);
    }
  }

  lemma OneBadLast(clock: Clock, rs: seq<ExecutionReceipt>, e: SchemaError)
    requires rs != [] && forall i :: 0 <= i < |rs| - 1 ==> ReceiptSchemaErrors(clock, rs[i]) == []
    requires ReceiptSchemaErrors(clock, rs[|rs| - 1]) == [e]
    ensures TimeoutsIn(clock, rs, |rs|) == (if e == TimeoutOrder then 1 else 0)
    ensures SchemaErrorsIn(clock, rs, |rs|) == 1
  {
    hide ReceiptSchemaErrors;
    AllClean(clock, rs, |rs| - 1);
    assert CountTimeouts([e]) == (if e == TimeoutOrder then 1 else 0) + CountTimeouts([e][1..]);
  }

  /** Schema errors: one timeout after `TimeoutSwap`, one other after `Malformed`, and no more. */
  lemma SchemaFound(rt: Runtime, seed: int, agent: nat, n: nat, attack: Attack)
    ensures var rs := Attacked(Honest(rt, seed, agent, n), attack);
      && TimeoutsIn(rt.clock, rs, |rs|) == (if attack == TimeoutSwap && n >= 1 then 1 else 0)
      && SchemaErrorsIn(rt.clock, rs, |rs|) == if (attack == TimeoutSwap || attack == Malformed) && n >= 1 then 1 else 0
  {
    hide ReceiptSchemaErrors, Honest, Swapped;
    var h := Honest(rt, seed, agent, n);
    var rs := Attacked(h, attack);
    forall i | 0 <= i < n ensures ReceiptSchemaErrors(rt.clock, h[i]) == [] {
      HonestClean(rt, seed, agent, n, i);
    }
    if n >= 1 {
      HonestClean(rt, seed, agent, n, n - 1);
      match attack {
        case TimeoutSwap =>
          OneBadLast(rt.clock, rs, TimeoutOrder);
        case Malformed =>
          OneBadLast(rt.clock, rs, MalformedStatus);
        case Replay(salt) =>
          HonestClean(rt, seed, agent, n, 0);
          CloneClean(rt.clock, h[0], salt);
          AllClean(rt.clock, rs, |rs|);
        case ForgedChain =>
          if n > 1 {
            HonestClean(rt, seed, agent, n, 1);
          }
          AllClean(rt.clock, rs, |rs|);
        case _ =>
          AllClean(rt.clock, rs, |rs|);
      }
    }
  }

  lemma CloneClean(clock: Clock, r: ExecutionReceipt, salt: nat)
    requires r.receiptId != ""
    ensures ReceiptSchemaErrors(clock, Clone(r, salt)) == ReceiptSchemaErrors(clock, r)
  {}

  // ----- links of an attacked chain -----

  lemma StepsSorted(rs: seq<ExecutionReceipt>)
    requires forall i :: 0 <= i < |rs| ==> rs[i].stepIndex == i
    ensures SortReceipts(rs) == rs
  {
    SortOfSorted(rs, ReceiptLe);
  }

  /** Attacks that do not add a receipt leave the chain in step order. */
  lemma AttackedContiguous(rt: Runtime, seed: int, agent: nat, n: nat, attack: Attack)
    requires !Adds(attack)
    ensures var rs := Attacked(Honest(rt, seed, agent, n), attack);
      |rs| == n && Contiguous(rs) && SortReceipts(rs) == rs
  {
    hide Honest, ReceiptId, SortReceipts;
    HonestSteps(rt, seed, agent, n);
    StepsSorted(Attacked(Honest(rt, seed, agent, n), attack));
  }

  lemma HonestLink(rt: Runtime, seed: int, agent: nat, n: nat, i: nat)
    requires i < n
    ensures !BadLink(rt.d, Honest(rt, seed, agent, n), i)
  {
    HonestAt(rt, seed, agent, n, i);
  }

  /** Two receipts that claim to be first: one of them is not, whatever the order. */
  lemma TwoFirsts(d: Digester, rs: seq<ExecutionReceipt>, i: nat, j: nat) returns (k: nat)
    requires i < j < |rs| && rs[i].prevReceiptHash == "" && rs[j].prevReceiptHash == ""
    ensures 1 <= k < |rs| && BadLink(d, SortReceipts(rs), k)
  {
    TagsBijective(rs);
    SortedTagsAre(rs);
    var p, q := Position(rs, i), Position(rs, j);
    k := if p == 0 then q else p;
    assert SortReceipts(rs)[k].prevReceiptHash == "";
  }

  ghost predicate BadLinkAfterFirst(d: Digester, sorted: seq<ExecutionReceipt>)
  {
    exists k :: 1 <= k < |sorted| && BadLink(d, sorted, k)
  }

  lemma {:induction false} ForgedAppend(errs: seq<LinkError>, e: LinkError)
    ensures Forged(errs + [e]) == Forged(errs) + if e == ForgedPrevHash then 1 else 0
  {
    if errs == [] {
      assert [e][1..] == [];
    } else {
      assert (errs + [e])[1..] == errs[1..] + [e];
      ForgedAppend(errs[1..], e);
    }
  }

  lemma {:induction false} ForgedWhere(d: Digester, sorted: seq<ExecutionReceipt>, n: nat)
    requires n <= |sorted|
    ensures Forged(LinkErrors(d, sorted, n)) > 0 <==> exists k :: 1 <= k < n && BadLink(d, sorted, k)
  {
    hide BadLink, Forged;
    if n == 0 {
      NoneForged();
    } else {
      ForgedWhere(d, sorted, n - 1);
      if BadLink(d, sorted, n - 1) {
        ForgedAppend(LinkErrors(d, sorted, n - 1), if n == 1 then UnexpectedPrevOnFirst else ForgedPrevHash);
      }
    }
  }

  lemma NoneForged()
    ensures Forged([]) == 0
  {}

  /** The attacks that break a link: a forged one, and any added receipt. */
  predicate BreaksLink(attack: Attack, n: nat)
  {
    Strikes(attack, n) && (attack == ForgedChain || Adds(attack))
  }

  lemma AddedBreaks(rt: Runtime, seed: int, agent: nat, n: nat, attack: Attack)
    requires n >= 1 && Adds(attack)
    ensures BadLinkAfterFirst(rt.d, SortReceipts(Attacked(Honest(rt, seed, agent, n), attack)))
  {
    var h := Honest(rt, seed, agent, n);
    HonestAt(rt, seed, agent, n, 0);
    var k := TwoFirsts(rt.d, Attacked(h, attack), 0, n);
  }

  /** An attack that neither adds a receipt nor forges a link leaves the links and all receipts but
      the last as they were. */
  lemma LinksUntouched(h: seq<ExecutionReceipt>, attack: Attack)
    requires !Adds(attack) && !BreaksLink(attack, |h|)
    ensures var rs := Attacked(h, attack);
      && |rs| == |h|
      && (forall i :: 0 <= i < |h| ==> rs[i].prevReceiptHash == h[i].prevReceiptHash && rs[i].stepIndex == h[i].stepIndex)
      && (forall i :: 0 <= i < |h| - 1 ==> rs[i] == h[i])
  {}

  lemma UnaddedLinks(rt: Runtime, seed: int, agent: nat, n: nat, attack: Attack)
    requires !Adds(attack)
    ensures var rs := Attacked(Honest(rt, seed, agent, n), attack);
      && (BreaksLink(attack, n) ==> BadLinkAfterFirst(rt.d, rs))
      && (!BreaksLink(attack, n) ==> forall i :: 0 <= i < |rs| ==> !BadLink(rt.d, rs, i))
  {
    hide Honest;
    var h := Honest(rt, seed, agent, n);
    var rs := Attacked(h, attack);
    if BreaksLink(attack, n) {
      assert |FORGED_PREV| == 66;
      assert BadLink(rt.d, rs, 1);
    } else {
      hide Attacked;
      LinksUntouched(h, attack);
      forall i | 0 <= i < n ensures !BadLink(rt.d, rs, i) {
        HonestLink(rt, seed, agent, n, i);
      }
    }
  }

  /** Broken links: found exactly after the attacks that break one; no digest can hide them. */
  lemma LinksFound(rt: Runtime, seed: int, agent: nat, n: nat, attack: Attack)
    ensures var errs := LinkErrors(rt.d, SortReceipts(Attacked(Honest(rt, seed, agent, n), attack)),
                                   |Attacked(Honest(rt, seed, agent, n), attack)|);
      && (Forged(errs) > 0 <==> BreaksLink(attack, n))
      && (errs == [] <==> !BreaksLink(attack, n))
  {
    hide BadLink, Forged, Honest, Attacked, SortReceipts;
    var rs := Attacked(Honest(rt, seed, agent, n), attack);
    ForgedWhere(rt.d, SortReceipts(rs), |rs|);
    NoLinkErrors(rt.d, SortReceipts(rs), |rs|);
    if Adds(attack) && n >= 1 {
      AddedBreaks(rt, seed, agent, n, attack);
    } else {
      var plain := if Adds(attack) then NoAttack else attack;
      EmptyChainUntouched(rt, seed, agent, n, attack, plain);
      AttackedContiguous(rt, seed, agent, n, plain);
      UnaddedLinks(rt, seed, agent, n, plain);
    }
  }

  lemma EmptyChainUntouched(rt: Runtime, seed: int, agent: nat, n: nat, attack: Attack, plain: Attack)
    requires n == 0 || attack == plain
    ensures Attacked(Honest(rt, seed, agent, n), attack) == Attacked(Honest(rt, seed, agent, n), plain)
  {}

  // ----- one agent -----

  datatype Choice = Choice(steps: nat, attack: Attack)

  function AgentReceipts(rt: Runtime, seed: int, agent: nat, c: Choice): seq<ExecutionReceipt>
  {
    Attacked(Honest(rt, seed, agent, c.steps), c.attack)
  }

  lemma NotStruck(rt: Runtime, seed: int, agent: nat, c: Choice)
    requires !Strikes(c.attack, c.steps)
    ensures AgentReceipts(rt, seed, agent, c) == Honest(rt, seed, agent, c.steps)
  {}

  /** The detectors pass an agent exactly when no attack struck and no two of its bodies collide. */
  lemma AgentPasses(rt: Runtime, seed: int, agent: nat, c: Choice)
    ensures AgentOk(rt.d, rt.clock, AgentReceipts(rt, seed, agent, c))
      <==> !Strikes(c.attack, c.steps) && !BodyCollision(rt.d, Honest(rt, seed, agent, c.steps))
  {
    hide ReceiptSchemaErrors, ReplayedBodies, DuplicateExtra, LinkErrors, SortReceipts, BodyCollision, Attacked, Honest,
         SchemaErrorsIn;
    var rs := AgentReceipts(rt, seed, agent, c);
    DuplicatesFound(rt, seed, agent, c.steps, c.attack);
    ReplaysFound(rt, seed, agent, c.steps, c.attack);
    SchemaFound(rt, seed, agent, c.steps, c.attack);
    LinksFound(rt, seed, agent, c.steps, c.attack);
    SchemaClean(rt.clock, rs);
    if !Strikes(c.attack, c.steps) {
      NotStruck(rt, seed, agent, c);
    }
  }

  lemma HonestStarts(rt: Runtime, seed: int, agent: nat, n: nat)
    ensures Sorted(Honest(rt, seed, agent, n), StartLe)
  {
    hide Honest;
    var h := Honest(rt, seed, agent, n);
    forall i, j | 0 <= i < j < n ensures StartLe(h[i], h[j]) {
      HonestAt(rt, seed, agent, n, i);
      HonestAt(rt, seed, agent, n, j);
      assert Seconds(agent, i, 0) <= Seconds(agent, j, 0);
    }
  }

  lemma HonestOwned(rt: Runtime, seed: int, agent: nat, n: nat)
    ensures forall r :: r in Honest(rt, seed, agent, n) ==>
      r.taskId == HonestTask(seed, agent).taskId && r.traceId == HonestTask(seed, agent).traceId
  {
    hide Honest, HonestTask;
    var h := Honest(rt, seed, agent, n);
    forall r | r in h ensures r.taskId == HonestTask(seed, agent).taskId && r.traceId == HonestTask(seed, agent).traceId {
      var i :| 0 <= i < n && h[i] == r;
      HonestAt(rt, seed, agent, n, i);
    }
  }

  lemma {:induction false} ForTaskAll(rs: seq<ExecutionReceipt>, taskId: string)
    requires forall r :: r in rs ==> r.taskId == taskId
    ensures ForTask(rs, taskId) == rs
  {
    if rs != [] {
      assert rs == [rs[0]] + rs[1..];
      ForTaskAll(rs[1..], taskId);
    }
  }

  /** A store holding an honest chain verifies the bundle built from it, unless the chain is empty. */
  lemma HonestVerifies(rt: Runtime, seed: int, agent: nat, n: nat, rs: seq<ExecutionReceipt>,
                       refs: seq<string>, bundleId: string, createdAt: string, emptyDigest: string)
    requires Ids(rs) == Ids(Honest(rt, seed, agent, n))
    requires forall r :: r in rs ==> r in Honest(rt, seed, agent, n)
    ensures var task := HonestTask(seed, agent);
      StoreVerdict(rt.d, task, Bundled(rt.d, task, rs, refs, bundleId, createdAt, emptyDigest),
                   Honest(rt, seed, agent, n), None) == ReceiptChainValid
      <==> n >= 1
  {
    hide Honest, HonestTask, Bundled, StoreVerdict, DistinctIds;
    var h, task := Honest(rt, seed, agent, n), HonestTask(seed, agent);
    HonestDistinct(rt, seed, agent, n);
    HonestOwned(rt, seed, agent, n);
    HonestStarts(rt, seed, agent, n);
    ForTaskAll(h, task.taskId);
    HonestSorted(rt, seed, agent, n);
    BuildThenVerify(rt.d, task, h, None, rs, refs, bundleId, createdAt, emptyDigest);
    IdsName(h, rs, h);
  }

  lemma HonestSorted(rt: Runtime, seed: int, agent: nat, n: nat)
    ensures SortReceipts(Honest(rt, seed, agent, n)) == Honest(rt, seed, agent, n)
  {
    AttackedContiguous(rt, seed, agent, n, NoAttack);
  }

  method SyncStore(d: Digester, receipts: seq<ExecutionReceipt>) returns (store: InMemoryReceiptStore)
    requires DistinctIds(receipts)
    ensures fresh(store) && store.Valid() && store.rows == receipts
  {
    store := new InMemoryReceiptStore();
    for i := 0 to |receipts|
      invariant fresh(store) && store.Valid() && store.rows == receipts[..i]
    {
      GetFinds(store.rows, receipts[i].receiptId);
      var raised := store.SaveReceipt(d, receipts[i]);
    }
  }

  const SELLER := "0x000000000000000000000000000000000000dEaD"
  const TOKEN := "0x000000000000000000000000000000000000c0ffee"

  /** Stores, bundles, verifies and plans the chain of an agent that passed; `plan` is what the
      harness counts, `None` when verification fails. */
  method SettleAgent(rt: Runtime, mode: Mode, seed: int, agent: nat, n: nat)
    returns (plan: Option<Plan>)
    ensures plan.Some? <==> n >= 1
    ensures plan.Some? ==> Functions(plan.value.calls) == ALL_FUNCTIONS && plan.value.taskId == HonestTask(seed, agent).taskId
  {
    hide Honest, HonestTask, StoreVerdict, DistinctIds, Bundled, IsHex64, BilateralCalls;
    var task, chain := HonestTask(seed, agent), SortReceipts(Honest(rt, seed, agent, n));
    HonestSorted(rt, seed, agent, n);
    HonestDistinct(rt, seed, agent, n);
    var store := SyncStore(rt.d, chain);
    var bundleId := "b-" + AgentName(seed, agent);
    var built := BuildEvidenceBundle(rt.d, store, task, Ids(chain), [], Some(bundleId),
                                     Some(Iso(rt.clock, agent, 99, 0)), "", "", rt.sha("empty"));
    if built.MissingReceipt? {
      IdsStored(chain, built.id);
      assert false;
    }
    ghost var rs :| Ids(rs) == Ids(chain) && (forall r :: r in rs ==> r in store.rows)
                    && built.bundle == Bundled(rt.d, task, rs, [], OrElse(Some(bundleId), ""),
                                               OrElse(Some(Iso(rt.clock, agent, 99, 0)), ""), rt.sha("empty"));
    HonestVerifies(rt, seed, agent, n, rs, [], OrElse(Some(bundleId), ""),
                   OrElse(Some(Iso(rt.clock, agent, 99, 0)), ""), rt.sha("empty"));
    var verify := VerifyEvidenceBundleStructural(rt.d, task, built.bundle, store, None, "", "");
    if !verify.structOk {
      return None;
    }
    var terms := Terms(SELLER, TOKEN, 1000000);
    var proofHash, scopeHex := ProofHashPointer(rt.d.bundle(built.bundle)), "0x" + rt.d.task(task);
    var p := BuildOffchainPlan(mode, task, built.bundle, proofHash, scopeHex, terms, verify, None);
    PausedIsPrefix(SELLER, TOKEN, 1000000, scopeHex, proofHash);
    plan := Some(p);
  }

  lemma IdsStored(rs: seq<ExecutionReceipt>, id: string)
    requires id in Ids(rs)
    ensures Get(rs, id).Some?
  {
    var i :| 0 <= i < |rs| && Ids(rs)[i] == id;
    GetFinds(rs, id);
    assert rs[i] in rs;
  }

  // ----- the run -----

  datatype Totals = Totals(
    receipts: nat,
    valid: nat,
    invalid: nat,
    replays: nat,
    duplicates: int,
    timeouts: nat,
    malformed: nat,
    forged: nat,
    bundles: nat,
    plans: nat)

  function Plus(a: Totals, b: Totals): Totals
  {
    Totals(a.receipts + b.receipts, a.valid + b.valid, a.invalid + b.invalid, a.replays + b.replays,
           a.duplicates + b.duplicates, a.timeouts + b.timeouts, a.malformed + b.malformed, a.forged + b.forged,
           a.bundles + b.bundles, a.plans + b.plans)
  }

  const ZERO := Totals(0, 0, 0, 0, 0, 0, 0, 0, 0, 0)

  datatype Issue = DuplicateReceiptId | ReplayedReceiptHash | ChainLink | VerifyFail

  datatype FailedCase = FailedCase(agent: nat, issue: Issue)

  function Case(c: bool, agent: nat, issue: Issue): seq<FailedCase>
  {
    if c then [FailedCase(agent, issue)] else []
  }

  /** The cases one agent adds, from what the detectors found. */
  function AgentCases(agent: nat, f: Findings, passed: bool, planned: bool): seq<FailedCase>
  {
    Case(f.duplicates != 0, agent, DuplicateReceiptId) + Case(f.replays != 0, agent, ReplayedReceiptHash)
      + Case(f.linkErrors != 0, agent, ChainLink) + Case(passed && !planned, agent, VerifyFail)
  }

  /** What the detectors make of one agent's chain. */
  ghost function AgentFindings(rt: Runtime, seed: int, agent: nat, c: Choice): Findings
  {
    Judge(rt.d, rt.clock, AgentReceipts(rt, seed, agent, c))
  }

  function TotalsOf(f: Findings, planned: bool): Totals
  {
    var k := if planned then 1 else 0;
    Totals(f.receipts, f.valid, f.invalid, f.replays, f.duplicates, f.timeouts, f.malformed, f.forged, k, k)
  }

  /** An agent ends with a bundle and a plan when its detectors pass it and its chain is not empty. */
  ghost predicate Planned(rt: Runtime, seed: int, agent: nat, c: Choice)
  {
    AgentFindings(rt, seed, agent, c).ok && c.steps >= 1
  }

  ghost function RunTotals(rt: Runtime, seed: int, choices: seq<Choice>): Totals
  {
    if choices == [] then ZERO
    else
      var k := |choices| - 1;
      Plus(RunTotals(rt, seed, choices[..k]),
           TotalsOf(AgentFindings(rt, seed, k, choices[k]), Planned(rt, seed, k, choices[k])))
  }

  ghost function RunCases(rt: Runtime, seed: int, choices: seq<Choice>): seq<FailedCase>
  {
    if choices == [] then []
    else
      var k := |choices| - 1;
      var f := AgentFindings(rt, seed, k, choices[k]);
      RunCases(rt, seed, choices[..k]) + AgentCases(k, f, f.ok, Planned(rt, seed, k, choices[k]))
  }

  method RunAgent(rt: Runtime, mode: Mode, seed: int, agent: nat, c: Choice)
    returns (f: Findings, plan: Option<Plan>)
    ensures f == AgentFindings(rt, seed, agent, c)
    ensures plan.Some? <==> Planned(rt, seed, agent, c)
    ensures plan.Some? ==> Functions(plan.value.calls) == ALL_FUNCTIONS
  {
    hide Judge, Honest, Attacked, HonestTask, BodyCollision, AgentOk;
    var task, honest := BuildHonestReceipts(rt, agent, seed, c.steps);
    var receipts := new ReceiptList(honest);
    ApplyAttack(receipts, c.attack);
    f := Inspect(rt.d, rt.clock, receipts.items);
    plan := None;
    if f.ok {
      AgentPasses(rt, seed, agent, c);
      JudgeOk(rt.d, rt.clock, receipts.items);
      NotStruck(rt, seed, agent, c);
      plan := SettleAgent(rt, mode, seed, agent, c.steps);
    }
  }

  lemma JudgeOk(d: Digester, clock: Clock, rs: seq<ExecutionReceipt>)
    ensures Judge(d, clock, rs).ok <==> AgentOk(d, clock, rs)
  {}

  method RunStress(rt: Runtime, mode: Mode, seed: int, choices: seq<Choice>)
    returns (totals: Totals, failedCases: seq<FailedCase>)
    ensures totals == RunTotals(rt, seed, choices)
    ensures failedCases == RunCases(rt, seed, choices)
  {
    hide AgentFindings, Planned, AgentCases, TotalsOf, Plus;
    totals, failedCases := ZERO, [];
    for agent := 0 to |choices|
      invariant totals == RunTotals(rt, seed, choices[..agent])
      invariant failedCases == RunCases(rt, seed, choices[..agent])
    {
      var f, plan := RunAgent(rt, mode, seed, agent, choices[agent]);
      totals := Plus(totals, TotalsOf(f, plan.Some?));
      failedCases := failedCases + AgentCases(agent, f, f.ok, plan.Some?);
      assert choices[..agent + 1][..agent] == choices[..agent];
    }
    assert choices[..|choices|] == choices;
  }

  // ----- what a run reports -----

  /** Each attack trips its own detector, whatever the digests are; the detectors for duplicates,
      timeouts and malformed receipts fire for no other attack. */
  lemma AttackDetected(rt: Runtime, seed: int, agent: nat, c: Choice)
    ensures var f := AgentFindings(rt, seed, agent, c);
      && f.duplicates == (if c.attack == DuplicateId && c.steps >= 1 then 1 else 0)
      && f.timeouts == (if c.attack == TimeoutSwap && c.steps >= 1 then 1 else 0)
      && f.malformed == (if c.attack == Malformed && c.steps >= 1 then 1 else 0)
      && (f.forged > 0 <==> BreaksLink(c.attack, c.steps))
      && (f.linkErrors > 0 <==> BreaksLink(c.attack, c.steps))
      && (f.replays == 0 <==>
            !(c.attack.Replay? && c.steps >= 1) && !BodyCollision(rt.d, AgentReceipts(rt, seed, agent, c)))
      && f.receipts == c.steps + (if Adds(c.attack) && c.steps >= 1 then 1 else 0)
  {
    hide ReceiptSchemaErrors, ReplayedBodies, DuplicateExtra, LinkErrors, SortReceipts, BodyCollision, Honest,
         SchemaErrorsIn, TimeoutsIn, Forged, AgentOk, InvalidSet, BreaksLink, Clone, Swapped;
    DuplicatesFound(rt, seed, agent, c.steps, c.attack);
    ReplaysFound(rt, seed, agent, c.steps, c.attack);
    SchemaFound(rt, seed, agent, c.steps, c.attack);
    LinksFound(rt, seed, agent, c.steps, c.attack);
  }

  /** An agent has an invalid receipt exactly when its detectors do not pass it. */
  lemma InvalidIffNotOk(rt: Runtime, seed: int, agent: nat, c: Choice)
    ensures AgentFindings(rt, seed, agent, c).invalid == 0 <==> AgentFindings(rt, seed, agent, c).ok
  {
    hide AgentOk, InvalidSet, AgentReceipts;
    AgentOkIffAllValid(rt.d, rt.clock, AgentReceipts(rt, seed, agent, c));
    var bad := InvalidSet(rt.d, rt.clock, AgentReceipts(rt, seed, agent, c), |AgentReceipts(rt, seed, agent, c)|);
    assert |bad| == 0 <==> bad == {};
  }

  lemma AgentPlanned(rt: Runtime, seed: int, agent: nat, c: Choice)
    ensures Planned(rt, seed, agent, c)
      <==> c.steps >= 1 && !Strikes(c.attack, c.steps) && !BodyCollision(rt.d, Honest(rt, seed, agent, c.steps))
  {
    hide AgentOk, Judge, AgentReceipts, Honest, BodyCollision, Strikes;
    JudgeOk(rt.d, rt.clock, AgentReceipts(rt, seed, agent, c));
    AgentPasses(rt, seed, agent, c);
  }

  ghost function PlannedAgents(rt: Runtime, seed: int, choices: seq<Choice>): set<int>
  {
    set k | 0 <= k < |choices| && Planned(rt, seed, k, choices[k])
  }

  lemma PlannedAgentsStep(rt: Runtime, seed: int, choices: seq<Choice>)
    requires choices != []
    ensures var k := |choices| - 1;
      |PlannedAgents(rt, seed, choices)|
        == |PlannedAgents(rt, seed, choices[..k])| + if Planned(rt, seed, k, choices[k]) then 1 else 0
  {
    hide Planned;
    var k := |choices| - 1;
    assert PlannedAgents(rt, seed, choices)
        == PlannedAgents(rt, seed, choices[..k]) + if Planned(rt, seed, k, choices[k]) then {k} else {};
  }

  function CountWhere(choices: seq<Choice>, p: Choice -> bool): nat
  {
    if choices == [] then 0
    else CountWhere(choices[..|choices| - 1], p) + if p(choices[|choices| - 1]) then 1 else 0
  }

  function Hit(attack: Attack): (p: Choice -> bool)
  {
    (c: Choice) => c.attack == attack && c.steps >= 1
  }

  /** Bundles and plans are counted for exactly the agents planned, and the totals add up: every
      receipt is either valid or invalid, duplicates, timeouts and malformed receipts are one for
      each agent so attacked. */
  lemma {:induction false} RunAddsUp(rt: Runtime, seed: int, choices: seq<Choice>)
    ensures var t := RunTotals(rt, seed, choices);
      && t.valid + t.invalid == t.receipts
      && t.bundles == t.plans == |PlannedAgents(rt, seed, choices)|
      && t.duplicates == CountWhere(choices, Hit(DuplicateId))
      && t.timeouts == CountWhere(choices, Hit(TimeoutSwap))
      && t.malformed == CountWhere(choices, Hit(Malformed))
  {
    hide Judge, Planned, PlannedAgents, AgentReceipts, BodyCollision, BreaksLink, Adds;
    if choices == [] {
      NoAgents(rt, seed);
    } else {
      var k := |choices| - 1;
      RunAddsUp(rt, seed, choices[..k]);
      AttackDetected(rt, seed, k, choices[k]);
      PlannedAgentsStep(rt, seed, choices);
    }
  }

  lemma NoAgents(rt: Runtime, seed: int)
    ensures PlannedAgents(rt, seed, []) == {}
  {}

  /** The un-attacked agents, by number. */
  ghost function Unattacked(choices: seq<Choice>): set<int>
  {
    set k | 0 <= k < |choices| && choices[k].attack == NoAttack
  }

  /** With at least two steps each, and no two bodies of one honest chain colliding, a run counts a
      bundle and a plan for exactly the un-attacked agents. */
  lemma RunPlansUnattacked(rt: Runtime, seed: int, choices: seq<Choice>)
    requires forall k :: 0 <= k < |choices| ==> choices[k].steps >= 2
    requires forall k :: 0 <= k < |choices| ==> !BodyCollision(rt.d, Honest(rt, seed, k, choices[k].steps))
    ensures PlannedAgents(rt, seed, choices) == Unattacked(choices)
    ensures RunTotals(rt, seed, choices).bundles == |Unattacked(choices)|
    ensures RunTotals(rt, seed, choices).plans == |Unattacked(choices)|
  {
    hide Planned, BodyCollision, Honest;
    forall k | 0 <= k < |choices| ensures Planned(rt, seed, k, choices[k]) <==> choices[k].attack == NoAttack {
      AgentPlanned(rt, seed, k, choices[k]);
    }
    RunAddsUp(rt, seed, choices);
  }

  /** Without the two hypotheses: an agent gets a bundle and a plan exactly when its chain is not
      empty, no attack struck it and no two of its bodies collide. */
  lemma RunPlansExactly(rt: Runtime, seed: int, choices: seq<Choice>, k: nat)
    requires k < |choices|
    ensures k in PlannedAgents(rt, seed, choices) <==>
      && choices[k].steps >= 1 && !Strikes(choices[k].attack, choices[k].steps)
      && !BodyCollision(rt.d, Honest(rt, seed, k, choices[k].steps))
  {
    hide Planned, BodyCollision, Honest, Strikes;
    AgentPlanned(rt, seed, k, choices[k]);
  }

  /** A run counts no invalid receipt exactly when the detectors pass every agent. */
  lemma {:induction false} RunAllValid(rt: Runtime, seed: int, choices: seq<Choice>)
    ensures RunTotals(rt, seed, choices).invalid == 0 <==>
      forall k :: 0 <= k < |choices| ==> AgentFindings(rt, seed, k, choices[k]).ok
  {
    hide AgentFindings, Planned;
    if choices != [] {
      var k := |choices| - 1;
      RunAllValid(rt, seed, choices[..k]);
      InvalidIffNotOk(rt, seed, k, choices[k]);
      assert forall i :: 0 <= i < k ==> choices[..k][i] == choices[i];
    }
  }

  /** The failed cases an agent adds. */
  ghost function CasesFor(rt: Runtime, seed: int, agent: nat, c: Choice): seq<FailedCase>
  {
    var f := AgentFindings(rt, seed, agent, c);
    AgentCases(agent, f, f.ok, Planned(rt, seed, agent, c))
  }

  /** The failed cases do not name every agent left without a plan: an agent is missing from both
      exactly when its times were swapped or its status spoilt and no two of its bodies collide. */
  lemma UnreportedAgents(rt: Runtime, seed: int, agent: nat, c: Choice)
    ensures !Planned(rt, seed, agent, c) && CasesFor(rt, seed, agent, c) == [] <==>
      && c.steps >= 1 && (c.attack == TimeoutSwap || c.attack == Malformed)
      && !BodyCollision(rt.d, AgentReceipts(rt, seed, agent, c))
  {
    hide Judge, AgentReceipts, BodyCollision, Honest, AgentOk;
    AttackDetected(rt, seed, agent, c);
    AgentPlanned(rt, seed, agent, c);
    JudgeOk(rt.d, rt.clock, AgentReceipts(rt, seed, agent, c));
    AgentPasses(rt, seed, agent, c);
    if !Strikes(c.attack, c.steps) {
      NotStruck(rt, seed, agent, c);
    }
  }
}
