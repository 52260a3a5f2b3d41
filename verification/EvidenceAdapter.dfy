/** Builds evidence bundles from stored receipts. */
module EvidenceAdapter {
  import opened Text
  import opened Schemas
  import opened ReceiptStore

  datatype BuildResult = Built(bundle: EvidenceBundle) | MissingReceipt(id: string)

  /** The bundle over a list of receipts; `emptyDigest` is the SHA-256 of the text `empty`. */
  function Bundled(d: Digester, task: TaskContract, rs: seq<ExecutionReceipt>, refs: seq<string>,
                   bundleId: string, createdAt: string, emptyDigest: string): EvidenceBundle
  {
    var hashes := RecordHashes(d, rs);
    EvidenceBundle(
      bundleId, task.taskId, d.task(task), hashes,
      if hashes == [] then emptyDigest else hashes[|hashes| - 1],
      refs, createdAt, "", "", BUNDLE_SCHEMA, task.traceId)
  }

  function Ids(rs: seq<ExecutionReceipt>): (ids: seq<string>)
    ensures |ids| == |rs| && forall i :: 0 <= i < |rs| ==> ids[i] == rs[i].receiptId
  {
    if rs == [] then [] else [rs[0].receiptId] + Ids(rs[1..])
  }

  /** Looks the receipts up one by one, stopping at the first id that is not stored. */
  method FetchReceipts(store: InMemoryReceiptStore, ids: seq<string>)
    returns (receipts: seq<ExecutionReceipt>, missing: Option<string>)
    requires store.Valid()
    ensures forall r :: r in receipts ==> r in store.rows
    ensures missing.None? ==> Ids(receipts) == ids
    ensures missing.Some? ==> |receipts| < |ids| && Ids(receipts) == ids[..|receipts|]
    ensures missing.Some? ==> missing.value == ids[|receipts|] && Get(store.rows, missing.value).None?
  {
    hide DistinctIds, Get;
    receipts, missing := [], None;
    for k := 0 to |ids|
      invariant Ids(receipts) == ids[..k]
      invariant forall r :: r in receipts ==> r in store.rows
    {
      var found := store.GetReceipt(ids[k]);
      if found.None? {
        GetFinds(store.rows, ids[k]);
        return receipts, Some(ids[k]);
      }
      receipts := receipts + [found.value];
      assert Ids(receipts) == ids[..k + 1];
    }
    assert ids[..|ids|] == ids;
  }

  /** A missing id raises; otherwise the bundle is over exactly the stored receipts named.
      The fallbacks `freshId` and `now` stand for `uuid4` and the clock. */
  method BuildEvidenceBundle(d: Digester, store: InMemoryReceiptStore, task: TaskContract, ids: seq<string>,
                             refs: seq<string>, bundleId: Option<string>, createdAt: Option<string>,
                             freshId: string, now: string, emptyDigest: string)
    returns (res: BuildResult)
    requires store.Valid()
    ensures res.MissingReceipt? ==> res.id in ids && Get(store.rows, res.id).None?
    ensures res.Built? ==>
              exists rs :: Ids(rs) == ids && (forall r :: r in rs ==> r in store.rows)
                && res.bundle == Bundled(d, task, rs, refs, OrElse(bundleId, freshId), OrElse(createdAt, now), emptyDigest)
  {
    var receipts, missing := FetchReceipts(store, ids);
    if missing.Some? {
      return MissingReceipt(missing.value);
    }
    res := Built(Bundled(d, task, receipts, refs, OrElse(bundleId, freshId), OrElse(createdAt, now), emptyDigest));
  }

  /** Ids of stored receipts name those receipts and no others. */
  lemma IdsName(rows: seq<ExecutionReceipt>, rs: seq<ExecutionReceipt>, ss: seq<ExecutionReceipt>)
    requires DistinctIds(rows) && (forall r :: r in rs ==> r in rows) && (forall s :: s in ss ==> s in rows)
    requires Ids(rs) == Ids(ss)
    ensures rs == ss
  {
    assert |Ids(rs)| == |Ids(ss)|;
    forall i | 0 <= i < |rs| ensures rs[i] == ss[i] {
      assert rs[i] in rs && ss[i] in ss;
      assert Ids(rs)[i] == Ids(ss)[i];
    }
  }
}
