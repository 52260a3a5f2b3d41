/** Structural verification of an evidence bundle against the receipts in a store. */
module Verification {
  import opened Text
  import opened Sorting
  import opened Schemas
  import opened OperationalControls
  import opened ReceiptStore
  import opened EvidenceAdapter

  datatype Reason =
    | Blocked(block: BlockReason)
    | TaskIdMismatch
    | TaskContractHashMismatch
    | ReceiptMissing
    | BundleTraceMismatch
    | ReceiptTraceMismatch
    | HashMismatch
    | ChronologicalError
    | ReceiptChainValid

  datatype VerificationResult = VerificationResult(
    verificationId: string,
    taskId: string,
    evidenceBundleDigest: string,
    structOk: bool,
    publicReasons: seq<Reason>,
    verifiedAt: string,
    traceId: string)

  /** Every receipt carries the task's trace id, if the task has one. */
  ghost predicate TracesAgree(task: TaskContract, chain: seq<ExecutionReceipt>)
  {
    task.traceId != "" ==> forall r :: r in chain ==> r.traceId == task.traceId
  }

  predicate StartLe(a: ExecutionReceipt, b: ExecutionReceipt)
  {
    StrLe(a.startedAt, b.startedAt)
  }

  function VerificationBlock(controls: Option<Controls>, task: TaskContract): Option<BlockReason>
  {
    if controls.Some? then controls.value.VerificationBlockReason(task) else None
  }

  /** The one public reason a verification ends with. */
  ghost function Verdict(d: Digester, task: TaskContract, bundle: EvidenceBundle,
                         chain: seq<ExecutionReceipt>, block: Option<BlockReason>): Reason
  {
    if block.Some? then Blocked(block.value)
    else if bundle.taskId != task.taskId then TaskIdMismatch
    else if bundle.taskContractHash != d.task(task) then TaskContractHashMismatch
    else if chain == [] then ReceiptMissing
    else if task.traceId != "" && bundle.traceId != task.traceId then BundleTraceMismatch
    else if !TracesAgree(task, chain) then ReceiptTraceMismatch
    else if RecordHashes(d, chain) != bundle.receiptHashes then HashMismatch
    else if !Sorted(chain, StartLe) then ChronologicalError
    else ReceiptChainValid
  }

  /** The verdict on what a store holds for the task. */
  ghost function StoreVerdict(d: Digester, task: TaskContract, bundle: EvidenceBundle,
                              rows: seq<ExecutionReceipt>, controls: Option<Controls>): Reason
  {
    Verdict(d, task, bundle, SortedChain(rows, task.taskId), VerificationBlock(controls, task))
  }

  method VerifyEvidenceBundleStructural(d: Digester, task: TaskContract, bundle: EvidenceBundle,
                                        store: InMemoryReceiptStore, controls: Option<Controls>,
                                        verificationId: string, verifiedAt: string)
    returns (res: VerificationResult)
    requires store.Valid()
    ensures res.publicReasons == [StoreVerdict(d, task, bundle, store.rows, controls)]
    ensures res.structOk <==> StoreVerdict(d, task, bundle, store.rows, controls) == ReceiptChainValid
    ensures res.evidenceBundleDigest == d.bundle(bundle) && res.traceId == task.traceId
    ensures res.verificationId == verificationId && res.verifiedAt == verifiedAt
    ensures res.taskId == if VerificationBlock(controls, task).Some? then task.taskId else bundle.taskId
  {
    var digest := d.bundle(bundle);
    if controls.Some? {
      var block := controls.value.VerificationBlockReason(task);
      if block.Some? {
        return VerificationResult(verificationId, task.taskId, digest, false, [Blocked(block.value)],
                                  verifiedAt, task.traceId);
      }
    }
    res := VerificationResult(verificationId, bundle.taskId, digest, false, [], verifiedAt, task.traceId);
    if bundle.taskId != task.taskId {
      return res.(publicReasons := [TaskIdMismatch]);
    }
    if bundle.taskContractHash != d.task(task) {
      return res.(publicReasons := [TaskContractHashMismatch]);
    }
    var stored := store.GetReceiptChain(task.taskId);
    if stored == [] {
      return res.(publicReasons := [ReceiptMissing]);
    }
    var chain := SortReceipts(stored);
    assert chain == SortedChain(store.rows, task.taskId);
    if task.traceId != "" {
      if bundle.traceId != task.traceId {
        return res.(publicReasons := [BundleTraceMismatch]);
      }
      var agree := CheckTraces(task, chain);
      if !agree {
        return res.(publicReasons := [ReceiptTraceMismatch]);
      }
    }
    if RecordHashes(d, chain) != bundle.receiptHashes {
      return res.(publicReasons := [HashMismatch]);
    }
    var ordered := CheckChronology(chain);
    if !ordered {
      return res.(publicReasons := [ChronologicalError]);
    }
    res := res.(structOk := true, publicReasons := [ReceiptChainValid]);
  }

  method CheckTraces(task: TaskContract, chain: seq<ExecutionReceipt>) returns (agree: bool)
    requires task.traceId != ""
    ensures agree <==> TracesAgree(task, chain)
  {
    for i := 0 to |chain|
      invariant forall k :: 0 <= k < i ==> chain[k].traceId == task.traceId
    {
      if chain[i].traceId != task.traceId {
        assert chain[i] in chain;
        return false;
      }
    }
    agree := true;
  }

  /** Compares each start time with the one before; the ISO 8601 texts compare as strings. */
  method CheckChronology(chain: seq<ExecutionReceipt>) returns (ordered: bool)
    ensures ordered <==> Sorted(chain, StartLe)
  {
    var last := "";
    for i := 0 to |chain|
      invariant last == if i == 0 then "" else chain[i - 1].startedAt
      invariant Sorted(chain[..i], StartLe)
    {
      if !StrLe(last, chain[i].startedAt) {
        assert i > 0 && !StartLe(chain[i - 1], chain[i]);
        return false;
      }
      ExtendSorted(chain, i);
      last := chain[i].startedAt;
    }
    assert chain[..|chain|] == chain;
    ordered := true;
  }

  lemma ExtendSorted(chain: seq<ExecutionReceipt>, i: nat)
    requires i < |chain| && Sorted(chain[..i], StartLe)
    requires i > 0 ==> StartLe(chain[i - 1], chain[i])
    ensures Sorted(chain[..i + 1], StartLe)
  {
    forall k | 0 <= k < i ensures StartLe(chain[k], chain[i]) {
      if k < i - 1 {
        assert StartLe(chain[..i][k], chain[..i][i - 1]);
        StrLeTransitive(chain[k].startedAt, chain[i - 1].startedAt, chain[i].startedAt);
      }
    }
    forall j, k | 0 <= j < k < i + 1 ensures StartLe(chain[j], chain[k]) {
      if k < i {
        assert StartLe(chain[..i][j], chain[..i][k]);
      }
    }
  }

  lemma OwnBundleVerdict(d: Digester, task: TaskContract, chain: seq<ExecutionReceipt>, block: Option<BlockReason>,
                         refs: seq<string>, bundleId: string, createdAt: string, emptyDigest: string)
    ensures Verdict(d, task, Bundled(d, task, chain, refs, bundleId, createdAt, emptyDigest), chain, block)
              == ReceiptChainValid
            <==> chain != [] && TracesAgree(task, chain) && Sorted(chain, StartLe) && block.None?
  {}

  /** A bundle built from a task's stored receipts in (step, id) order verifies exactly when there
      are receipts, they carry the task's trace, they start in order and nothing blocks the task. */
  lemma BuildThenVerify(d: Digester, task: TaskContract, rows: seq<ExecutionReceipt>, controls: Option<Controls>,
                        rs: seq<ExecutionReceipt>, refs: seq<string>, bundleId: string, createdAt: string,
                        emptyDigest: string)
    requires DistinctIds(rows) && (forall r :: r in rs ==> r in rows)
    requires Ids(rs) == Ids(SortReceipts(ForTask(rows, task.taskId)))
    ensures StoreVerdict(d, task, Bundled(d, task, rs, refs, bundleId, createdAt, emptyDigest), rows, controls)
              == ReceiptChainValid
            <==> rs != [] && TracesAgree(task, rs) && Sorted(rs, StartLe) && VerificationBlock(controls, task).None?
  {
    var chain := SortedChain(rows, task.taskId);
    assert rs == chain by {
      SortedChainIs(rows, task.taskId);
      IdsName(rows, rs, chain);
    }
    OwnBundleVerdict(d, task, chain, VerificationBlock(controls, task), refs, bundleId, createdAt, emptyDigest);
  }

  /** The verdict is the same however the receipts were saved. */
  lemma VerdictIgnoresSaveOrder(d: Digester, task: TaskContract, bundle: EvidenceBundle, controls: Option<Controls>,
                                rs: seq<ExecutionReceipt>, ss: seq<ExecutionReceipt>)
    requires Consistent(rs) && forall r :: r in rs <==> r in ss
    ensures StoreVerdict(d, task, bundle, SavedAll([], rs), controls)
         == StoreVerdict(d, task, bundle, SavedAll([], ss), controls)
  {
    SaveOrderIsInvisible(rs, ss, task.taskId);
  }

  /** A bundle that verifies against two stores pins down one history: both hold the same receipts
      for the task in the same order, or a receipt of one and a different receipt of the other have one digest. */
  lemma OneBundleOneHistory(d: Digester, task: TaskContract, bundle: EvidenceBundle,
                            rows: seq<ExecutionReceipt>, other: seq<ExecutionReceipt>,
                            controls: Option<Controls>, otherControls: Option<Controls>)
    requires StoreVerdict(d, task, bundle, rows, controls) == ReceiptChainValid
    requires StoreVerdict(d, task, bundle, other, otherControls) == ReceiptChainValid
    ensures SortedChain(rows, task.taskId) == SortedChain(other, task.taskId)
         || ReceiptCollision(d, SortedChain(rows, task.taskId), SortedChain(other, task.taskId))
  {
    RecordHashesBind(d, SortedChain(rows, task.taskId), SortedChain(other, task.taskId));
  }

  /** In hashes alone: one history, or two different receipt texts with one hash. */
  lemma OneBundleOneHistoryOrCollides(h: Hasher, task: TaskContract, bundle: EvidenceBundle,
                                      rows: seq<ExecutionReceipt>, other: seq<ExecutionReceipt>,
                                      controls: Option<Controls>, otherControls: Option<Controls>)
    requires StoreVerdict(CanonicalDigests(h), task, bundle, rows, controls) == ReceiptChainValid
    requires StoreVerdict(CanonicalDigests(h), task, bundle, other, otherControls) == ReceiptChainValid
    ensures SortedChain(rows, task.taskId) == SortedChain(other, task.taskId)
         || TextCollision(h, SortedChain(rows, task.taskId), SortedChain(other, task.taskId))
  {
    hide StoreVerdict, CanonicalDigests, ReceiptCollision, TextCollision, SortedChain;
    OneBundleOneHistory(CanonicalDigests(h), task, bundle, rows, other, controls, otherControls);
    ReceiptCollisionIsHashCollision(h, SortedChain(rows, task.taskId), SortedChain(other, task.taskId));
  }
}
