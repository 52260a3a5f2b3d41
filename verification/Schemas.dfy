/**
 The records of the evidence runtime, their canonical dictionaries and their digests.
 SHA-256 is a parameter: any function into 64 lower-case hexadecimal characters. Nothing is
 assumed about collisions; results that need their absence name the two colliding texts.
 */
module Schemas {
  import opened Text
  import opened CanonicalJson

  datatype TaskContract = TaskContract(
    taskId: string,
    agentId: string,
    runtimeId: string,
    description: string,
    schemaVersion: string,
    traceId: string)

  datatype ExecutionReceipt = ExecutionReceipt(
    receiptId: string,
    taskId: string,
    agentId: string,
    runtimeId: string,
    stepIndex: int,
    toolName: string,
    inputHash: string,
    outputHash: string,
    startedAt: string,
    endedAt: string,
    durationMs: int,
    status: string,
    errorCode: string,
    evidenceRefs: seq<string>,
    signer: string,
    signature: string,
    schemaVersion: string,
    prevReceiptHash: string,
    traceId: string)

  datatype EvidenceBundle = EvidenceBundle(
    bundleId: string,
    taskId: string,
    taskContractHash: string,
    receiptHashes: seq<string>,
    finalResultHash: string,
    evidenceStorageRefs: seq<string>,
    createdAt: string,
    signer: string,
    signature: string,
    schemaVersion: string,
    traceId: string)

  const TASK_SCHEMA := "karma.task_contract.v1"
  const RECEIPT_SCHEMA := "karma.execution_receipt.v1"
  const BUNDLE_SCHEMA := "karma.ta.evidence_bundle.v1"

  // ----- dictionaries with a fixed list of keys -----

  ghost predicate DistinctStrings(keys: seq<string>)
  {
    forall i, j :: 0 <= i < j < |keys| ==> keys[i] != keys[j]
  }

  function Zip(keys: seq<string>, values: seq<Json>): (fields: seq<Field>)
    requires |values| <= |keys|
    ensures |fields| == |values|
    ensures forall i :: 0 <= i < |fields| ==> fields[i] == Field(keys[i], values[i])
  {
    if values == [] then [] else [Field(keys[0], values[0])] + Zip(keys[1..], values[1..])
  }

  function StrList(xs: seq<string>): (v: Json)
    ensures v.Arr? && |v.items| == |xs| && forall i :: 0 <= i < |xs| ==> v.items[i] == Str(xs[i])
  {
    if xs == [] then Arr([]) else Arr([Str(xs[0])] + StrList(xs[1..]).items)
  }

  /** A dictionary's optional last entry: present exactly when the string is not empty. */
  function Optional(s: string): seq<Json>
  {
    if s == "" then [] else [Str(s)]
  }

  predicate Flat(v: Json)
  {
    match v
    case Arr(items) => forall i :: 0 <= i < |items| ==> items[i].Str?
    case Obj(_) => false
    case _ => true
  }

  lemma SameFlat(v: Json, w: Json)
    requires Flat(v) && Same(v, w)
    ensures v == w
  {
    if v.Arr? {
      forall i | 0 <= i < |v.items| ensures v.items[i] == w.items[i] {
        assert Same(v.items[i], w.items[i]);
      }
      assert v.items == w.items;
    }
  }

  lemma SameZip(keys: seq<string>, vs: seq<Json>, ws: seq<Json>)
    requires DistinctStrings(keys) && |vs| <= |keys| && |ws| <= |keys|
    requires forall i :: 0 <= i < |vs| ==> Flat(vs[i])
    requires Same(Obj(Zip(keys, vs)), Obj(Zip(keys, ws)))
    ensures vs == ws
  {
    var fs, gs := Zip(keys, vs), Zip(keys, ws);
    forall i | 0 <= i < |vs| ensures vs[i] == ws[i] {
      assert Matched(fs, gs, i);
      var j :| 0 <= j < |gs| && gs[j].key == fs[i].key && Same(fs[i].value, gs[j].value);
      assert keys[i] == keys[j];
      SameFlat(vs[i], ws[i]);
    }
  }

  /** Equal texts of two such dictionaries have equal values under every key. */
  lemma ZipInjective(keys: seq<string>, vs: seq<Json>, ws: seq<Json>)
    requires DistinctStrings(keys) && |vs| <= |keys| && |ws| <= |keys|
    requires forall i :: 0 <= i < |vs| ==> Flat(vs[i])
    requires Encode(Obj(Zip(keys, vs))) == Encode(Obj(Zip(keys, ws)))
    ensures vs == ws
  {
    EncodeInjective(Obj(Zip(keys, vs)), Obj(Zip(keys, ws)));
    SameZip(keys, vs, ws);
  }

  // ----- canonical dictionaries of the three records -----

  const RECEIPT_KEYS: seq<string> := [
    "agent_id", "duration_ms", "ended_at", "error_code", "evidence_refs", "input_hash", "output_hash",
    "receipt_id", "runtime_id", "schema_version", "signer", "signature", "started_at", "status",
    "step_index", "task_id", "tool_name", "prev_receipt_hash", "trace_id"]

  function ReceiptValues(r: ExecutionReceipt): (vs: seq<Json>)
    ensures |vs| == if r.traceId == "" then 18 else 19
  {
    [ Str(r.agentId), Num(r.durationMs), Str(r.endedAt), Str(r.errorCode), StrList(r.evidenceRefs),
      Str(r.inputHash), Str(r.outputHash), Str(r.receiptId), Str(r.runtimeId), Str(r.schemaVersion),
      Str(r.signer), Str(r.signature), Str(r.startedAt), Str(r.status), Num(r.stepIndex), Str(r.taskId),
      Str(r.toolName), Str(r.prevReceiptHash) ] + Optional(r.traceId)
  }

  function ReceiptBytes(r: ExecutionReceipt): string
  {
    Encode(Obj(Zip(RECEIPT_KEYS, ReceiptValues(r))))
  }

  const TASK_KEYS: seq<string> :=
    ["agent_id", "description", "runtime_id", "schema_version", "task_id", "trace_id"]

  function TaskValues(t: TaskContract): (vs: seq<Json>)
    ensures |vs| == if t.traceId == "" then 5 else 6
  {
    [Str(t.agentId), Str(t.description), Str(t.runtimeId), Str(t.schemaVersion), Str(t.taskId)]
      + Optional(t.traceId)
  }

  function TaskBytes(t: TaskContract): string
  {
    Encode(Obj(Zip(TASK_KEYS, TaskValues(t))))
  }

  const BUNDLE_KEYS: seq<string> := [
    "bundle_id", "created_at", "evidence_storage_refs", "final_result_hash", "receipt_hashes",
    "schema_version", "signature", "signer", "task_contract_hash", "task_id", "trace_id"]

  function BundleValues(b: EvidenceBundle): (vs: seq<Json>)
    ensures |vs| == if b.traceId == "" then 10 else 11
  {
    [ Str(b.bundleId), Str(b.createdAt), StrList(b.evidenceStorageRefs), Str(b.finalResultHash),
      StrList(b.receiptHashes), Str(b.schemaVersion), Str(b.signature), Str(b.signer),
      Str(b.taskContractHash), Str(b.taskId) ] + Optional(b.traceId)
  }

  function BundleBytes(b: EvidenceBundle): string
  {
    Encode(Obj(Zip(BUNDLE_KEYS, BundleValues(b))))
  }

  /** A number that tells the keys of one record apart: the length and the third character. */
  function KeyCode(key: string): int
  {
    if |key| < 3 then 0 else |key| * 1000 + key[2] as int
  }

  ghost predicate DistinctInts(codes: seq<int>)
  {
    forall i, j :: 0 <= i < j < |codes| ==> codes[i] != codes[j]
  }

  lemma CodesTellApart(keys: seq<string>, codes: seq<int>)
    requires |keys| == |codes| && DistinctInts(codes)
    requires forall i :: 0 <= i < |keys| ==> KeyCode(keys[i]) == codes[i]
    ensures DistinctStrings(keys)
  {}

  lemma ReceiptKeysDistinct()
    ensures DistinctStrings(RECEIPT_KEYS)
  {
    CodesTellApart(RECEIPT_KEYS, [8101, 11114, 8100, 10114, 13105, 10112, 11116, 10099, 10110, 14104, 6103, 9103, 10097, 6097, 10101, 7115, 9111, 17101, 8097]);
  }

  lemma TaskKeysDistinct()
    ensures DistinctStrings(TASK_KEYS)
  {
    CodesTellApart(TASK_KEYS, [8101, 11115, 10110, 14104, 7115, 8097]);
  }

  lemma BundleKeysDistinct()
    ensures DistinctStrings(BUNDLE_KEYS)
  {
    CodesTellApart(BUNDLE_KEYS, [9110, 10101, 21105, 17110, 14099, 14104, 9103, 6103, 18115, 7115, 8097]);
  }

  function StringOf(v: Json): string
  {
    if v.Str? then v.s else ""
  }

  function StringsOf(v: Json): seq<string>
  {
    if v.Arr? then seq(|v.items|, i requires 0 <= i < |v.items| => StringOf(v.items[i])) else []
  }

  function IntOf(v: Json): int
  {
    if v.Num? then v.n else 0
  }

  lemma StringsOfList(xs: seq<string>)
    ensures StringsOf(StrList(xs)) == xs
  {}

  /** The receipt that a list of values under `RECEIPT_KEYS` stands for. */
  function ReceiptOf(vs: seq<Json>): ExecutionReceipt
    requires |vs| >= 18
  {
    ExecutionReceipt(
      StringOf(vs[7]), StringOf(vs[15]), StringOf(vs[0]), StringOf(vs[8]), IntOf(vs[14]), StringOf(vs[16]),
      StringOf(vs[5]), StringOf(vs[6]), StringOf(vs[12]), StringOf(vs[2]), IntOf(vs[1]), StringOf(vs[13]),
      StringOf(vs[3]), StringsOf(vs[4]), StringOf(vs[10]), StringOf(vs[11]), StringOf(vs[9]),
      StringOf(vs[17]), if |vs| > 18 then StringOf(vs[18]) else "")
  }

  lemma ReceiptOfValues(r: ExecutionReceipt)
    ensures ReceiptOf(ReceiptValues(r)) == r
  {
    StringsOfList(r.evidenceRefs);
  }

  lemma ReceiptValuesFlat(r: ExecutionReceipt)
    ensures forall i :: 0 <= i < |ReceiptValues(r)| ==> Flat(ReceiptValues(r)[i])
  {}

  /** Two receipts share their pre-hash text only if they are the same receipt. */
  lemma ReceiptBytesInjective(a: ExecutionReceipt, b: ExecutionReceipt)
    requires ReceiptBytes(a) == ReceiptBytes(b)
    ensures a == b
  {
    ReceiptKeysDistinct();
    ReceiptValuesFlat(a);
    ZipInjective(RECEIPT_KEYS, ReceiptValues(a), ReceiptValues(b));
    ReceiptOfValues(a);
    ReceiptOfValues(b);
  }

  function TaskOf(vs: seq<Json>): TaskContract
    requires |vs| >= 5
  {
    TaskContract(StringOf(vs[4]), StringOf(vs[0]), StringOf(vs[2]), StringOf(vs[1]), StringOf(vs[3]),
                 if |vs| > 5 then StringOf(vs[5]) else "")
  }

  lemma TaskBytesInjective(a: TaskContract, b: TaskContract)
    requires TaskBytes(a) == TaskBytes(b)
    ensures a == b
  {
    TaskKeysDistinct();
    ZipInjective(TASK_KEYS, TaskValues(a), TaskValues(b));
    assert TaskOf(TaskValues(a)) == a && TaskOf(TaskValues(b)) == b;
  }

  function BundleOf(vs: seq<Json>): EvidenceBundle
    requires |vs| >= 10
  {
    EvidenceBundle(
      StringOf(vs[0]), StringOf(vs[9]), StringOf(vs[8]), StringsOf(vs[4]), StringOf(vs[3]), StringsOf(vs[2]),
      StringOf(vs[1]), StringOf(vs[7]), StringOf(vs[6]), StringOf(vs[5]),
      if |vs| > 10 then StringOf(vs[10]) else "")
  }

  lemma BundleOfValues(b: EvidenceBundle)
    ensures BundleOf(BundleValues(b)) == b
  {
    StringsOfList(b.receiptHashes);
    StringsOfList(b.evidenceStorageRefs);
  }

  lemma BundleBytesInjective(a: EvidenceBundle, b: EvidenceBundle)
    requires BundleBytes(a) == BundleBytes(b)
    ensures a == b
  {
    BundleKeysDistinct();
    ZipInjective(BUNDLE_KEYS, BundleValues(a), BundleValues(b));
    BundleOfValues(a);
    BundleOfValues(b);
  }

  /** A receipt with its id left out: what a replay repeats. */
  function Body(r: ExecutionReceipt): ExecutionReceipt
  {
    r.(receiptId := "")
  }

  /** The dictionary without its `receipt_id` entry, the eighth. */
  function BodyKeys(): (keys: seq<string>)
    ensures |keys| == 18
  {
    RECEIPT_KEYS[..7] + RECEIPT_KEYS[8..]
  }

  function BodyValues(r: ExecutionReceipt): (vs: seq<Json>)
    ensures |vs| == if r.traceId == "" then 17 else 18
  {
    ReceiptValues(r)[..7] + ReceiptValues(r)[8..]
  }

  /** The text replays are recognised by. */
  function BodyBytes(r: ExecutionReceipt): string
  {
    Encode(Obj(Zip(BodyKeys(), BodyValues(r))))
  }

  lemma BodyKeysDistinct()
    ensures DistinctStrings(BodyKeys())
  {
    ReceiptKeysDistinct();
    var keys := BodyKeys();
    forall i, j | 0 <= i < j < |keys| ensures keys[i] != keys[j] {
      assert keys[i] == RECEIPT_KEYS[if i < 7 then i else i + 1];
      assert keys[j] == RECEIPT_KEYS[if j < 7 then j else j + 1];
    }
  }

  lemma BodyValuesFlat(r: ExecutionReceipt)
    ensures forall i :: 0 <= i < |BodyValues(r)| ==> Flat(BodyValues(r)[i])
  {
    ReceiptValuesFlat(r);
    forall i | 0 <= i < |BodyValues(r)| ensures Flat(BodyValues(r)[i]) {
      assert BodyValues(r)[i] == ReceiptValues(r)[if i < 7 then i else i + 1];
    }
  }

  lemma BodyValuesInjective(a: ExecutionReceipt, b: ExecutionReceipt)
    ensures BodyValues(a) == BodyValues(b) <==> Body(a) == Body(b)
  {
    assert ReceiptValues(Body(a)) == ReceiptValues(a)[7 := Str("")];
    assert ReceiptValues(Body(b)) == ReceiptValues(b)[7 := Str("")];
    assert BodyValues(a) == BodyValues(Body(a)) && BodyValues(b) == BodyValues(Body(b));
    if BodyValues(a) == BodyValues(b) {
      PutBack(ReceiptValues(a), ReceiptValues(b), Str(""));
      ReceiptOfValues(Body(a));
      ReceiptOfValues(Body(b));
    }
  }

  lemma PutBack(vs: seq<Json>, ws: seq<Json>, v: Json)
    requires |vs| > 7 && |ws| > 7 && vs[..7] + vs[8..] == ws[..7] + ws[8..]
    ensures vs[7 := v] == ws[7 := v]
  {
    assert |vs| == |vs[..7] + vs[8..]| + 1 && |ws| == |ws[..7] + ws[8..]| + 1;
    forall i | 0 <= i < |vs| && i != 7 ensures vs[i] == ws[i] {
      var k := if i < 7 then i else i - 1;
      assert (vs[..7] + vs[8..])[k] == (ws[..7] + ws[8..])[k];
    }
  }

  /** Two receipts share their body text exactly when they differ in nothing but the id. */
  lemma BodyBytesFaithful(a: ExecutionReceipt, b: ExecutionReceipt)
    ensures BodyBytes(a) == BodyBytes(b) <==> Body(a) == Body(b)
  {
    BodyValuesInjective(a, b);
    if BodyBytes(a) == BodyBytes(b) {
      BodyKeysDistinct();
      BodyValuesFlat(a);
      ZipInjective(BodyKeys(), BodyValues(a), BodyValues(b));
    }
  }

  // ----- digests -----

  /** SHA-256 as text: 64 lower-case hexadecimal characters for every input. */
  type Hasher = h: string -> string | forall s :: IsHex64(h(s))
    ghost witness (s: string) => seq(64, (i: nat) => '0')

  /** Two different texts with one digest. */
  predicate Collide(h: Hasher, x: string, y: string)
  {
    x != y && h(x) == h(y)
  }

  /** The digests the runtime takes of its records. */
  datatype Digests = Digests(
    record: ExecutionReceipt -> string,
    body: ExecutionReceipt -> string,
    task: TaskContract -> string,
    bundle: EvidenceBundle -> string)

  /** What every hash function gives: digests of the right shape, and bodies that ignore the id. */
  type Digester = d: Digests |
    && (forall r :: |d.record(r)| == 64)
    && (forall a, b :: Body(a) == Body(b) ==> d.body(a) == d.body(b))
    && (forall b :: IsHex64(d.bundle(b)))
    ghost witness DigestWitness()

  ghost function DigestWitness(): Digests
  {
    var zeros := seq(64, (i: nat) => '0');
    Digests(r => zeros, r => zeros, t => zeros, b => zeros)
  }

  /** The texts that are hashed. */
  datatype Texts = Texts(
    record: ExecutionReceipt -> string,
    body: ExecutionReceipt -> string,
    task: TaskContract -> string,
    bundle: EvidenceBundle -> string)

  /** No two different records share a text; a body's text leaves out the receipt id alone. */
  ghost predicate Faithful(t: Texts)
  {
    && (forall a, b :: t.record(a) == t.record(b) ==> a == b)
    && (forall a, b :: t.body(a) == t.body(b) <==> Body(a) == Body(b))
    && (forall a, b :: t.task(a) == t.task(b) ==> a == b)
    && (forall a, b :: t.bundle(a) == t.bundle(b) ==> a == b)
  }

  /** The canonical texts of the three records, distinct for distinct records
      (a receipt without a trace id included). */
  function CanonicalTexts(): (t: Texts)
    ensures t == Texts(ReceiptBytes, BodyBytes, TaskBytes, BundleBytes)
  {
    Texts(ReceiptBytes, BodyBytes, TaskBytes, BundleBytes)
  }

  lemma CanonicalTextsFaithful()
    ensures Faithful(CanonicalTexts())
  {
    forall a, b ensures ReceiptBytes(a) == ReceiptBytes(b) ==> a == b {
      if ReceiptBytes(a) == ReceiptBytes(b) { ReceiptBytesInjective(a, b); }
    }
    forall a, b ensures BodyBytes(a) == BodyBytes(b) <==> Body(a) == Body(b) {
      BodyBytesFaithful(a, b);
    }
    forall a, b ensures TaskBytes(a) == TaskBytes(b) ==> a == b {
      if TaskBytes(a) == TaskBytes(b) { TaskBytesInjective(a, b); }
    }
    forall a, b ensures BundleBytes(a) == BundleBytes(b) ==> a == b {
      if BundleBytes(a) == BundleBytes(b) { BundleBytesInjective(a, b); }
    }
  }

  function HashOf<R(!new)>(h: Hasher, text: R -> string): (g: R -> string)
    ensures forall r :: g(r) == h(text(r)) && IsHex64(g(r))
  {
    r => h(text(r))
  }

  /** The digests of faithful texts. */
  function DigestsOf(h: Hasher, t: Texts): (d: Digester)
    requires Faithful(t)
  {
    Digests(HashOf(h, t.record), HashOf(h, t.body), HashOf(h, t.task), HashOf(h, t.bundle))
  }

  /** Two different receipts with one digest are a collision of the hash function on their two
      texts; likewise for bodies, tasks and bundles. */
  lemma DigestsBind(h: Hasher, t: Texts, a: ExecutionReceipt, b: ExecutionReceipt,
                    j: TaskContract, k: TaskContract, p: EvidenceBundle, q: EvidenceBundle)
    requires Faithful(t)
    ensures DigestsOf(h, t).record(a) == DigestsOf(h, t).record(b) && a != b ==>
              Collide(h, t.record(a), t.record(b))
    ensures DigestsOf(h, t).body(a) == DigestsOf(h, t).body(b) && Body(a) != Body(b) ==>
              Collide(h, t.body(a), t.body(b))
    ensures DigestsOf(h, t).task(j) == DigestsOf(h, t).task(k) && j != k ==>
              Collide(h, t.task(j), t.task(k))
    ensures DigestsOf(h, t).bundle(p) == DigestsOf(h, t).bundle(q) && p != q ==>
              Collide(h, t.bundle(p), t.bundle(q))
  {
    HashBinds(h, t.record, a, b);
    HashBinds(h, t.body, a, b);
    HashBinds(h, t.task, j, k);
    HashBinds(h, t.bundle, p, q);
  }

  lemma HashBinds<R(!new)>(h: Hasher, text: R -> string, a: R, b: R)
    ensures HashOf(h, text)(a) == HashOf(h, text)(b) && text(a) != text(b) ==> Collide(h, text(a), text(b))
  {}

  const POINTER_PREFIX := "karma-ta:v1/sha256/"

  function ProofHashPointer(digest: string): string
  {
    POINTER_PREFIX + Lower(digest)
  }

  function RecordHashes(d: Digester, rs: seq<ExecutionReceipt>): (hs: seq<string>)
    ensures |hs| == |rs| && forall i :: 0 <= i < |rs| ==> hs[i] == d.record(rs[i])
  {
    if rs == [] then [] else [d.record(rs[0])] + RecordHashes(d, rs[1..])
  }

  /** Some receipt of `rs` and some other receipt of `ss` have one digest. */
  ghost predicate ReceiptCollision(d: Digester, rs: seq<ExecutionReceipt>, ss: seq<ExecutionReceipt>)
  {
    exists i, j :: 0 <= i < |rs| && 0 <= j < |ss| && rs[i] != ss[j] && d.record(rs[i]) == d.record(ss[j])
  }

  /** Equal lists of receipt hashes come from equal lists of receipts, or two receipts collide. */
  lemma RecordHashesBind(d: Digester, rs: seq<ExecutionReceipt>, ss: seq<ExecutionReceipt>)
    requires RecordHashes(d, rs) == RecordHashes(d, ss)
    ensures rs == ss || ReceiptCollision(d, rs, ss)
  {
    assert |rs| == |RecordHashes(d, rs)|;
    forall i | 0 <= i < |rs| ensures rs[i] == ss[i] || ReceiptCollision(d, rs, ss) {
      assert RecordHashes(d, rs)[i] == RecordHashes(d, ss)[i];
    }
  }

  /** Equal proof-hash pointers name bundles with equal receipt hashes (and equal everything
      else), or two different bundles have one digest. */
  lemma PointerBinds(d: Digester, a: EvidenceBundle, b: EvidenceBundle)
    requires ProofHashPointer(d.bundle(a)) == ProofHashPointer(d.bundle(b))
    ensures d.bundle(a) == d.bundle(b)
    ensures a.receiptHashes == b.receiptHashes || (a != b && d.bundle(a) == d.bundle(b))
  {
    LowerOfHex(d.bundle(a));
    LowerOfHex(d.bundle(b));
    var n := |POINTER_PREFIX|;
    assert ProofHashPointer(d.bundle(a))[n..] == d.bundle(a);
    assert ProofHashPointer(d.bundle(b))[n..] == d.bundle(b);
  }

  // ----- digests of the canonical texts -----

  /** The digests the runtime takes with hash function `h`: those of the canonical texts. */
  ghost function CanonicalDigests(h: Hasher): Digester
  {
    CanonicalTextsFaithful();
    DigestsOf(h, CanonicalTexts())
  }

  /** Some receipt of `rs` and some receipt of `ss` have different texts with one hash. */
  ghost predicate TextCollision(h: Hasher, rs: seq<ExecutionReceipt>, ss: seq<ExecutionReceipt>)
  {
    exists i, j :: 0 <= i < |rs| && 0 <= j < |ss| && Collide(h, ReceiptBytes(rs[i]), ReceiptBytes(ss[j]))
  }

  lemma RecordDigestIs(h: Hasher, r: ExecutionReceipt)
    ensures CanonicalDigests(h).record(r) == h(ReceiptBytes(r))
    ensures CanonicalDigests(h).body(r) == h(BodyBytes(r))
  {
    hide ReceiptBytes, BodyBytes, TaskBytes, BundleBytes;
  }

  /** For canonical digests a receipt collision is a collision of the hash function on two texts. */
  lemma ReceiptCollisionIsHashCollision(h: Hasher, rs: seq<ExecutionReceipt>, ss: seq<ExecutionReceipt>)
    ensures ReceiptCollision(CanonicalDigests(h), rs, ss) <==> TextCollision(h, rs, ss)
  {
    hide ReceiptBytes, CanonicalDigests;
    forall i, j | 0 <= i < |rs| && 0 <= j < |ss|
      ensures rs[i] != ss[j] && CanonicalDigests(h).record(rs[i]) == CanonicalDigests(h).record(ss[j])
          <==> Collide(h, ReceiptBytes(rs[i]), ReceiptBytes(ss[j]))
    {
      RecordDigestIs(h, rs[i]);
      RecordDigestIs(h, ss[j]);
      if ReceiptBytes(rs[i]) == ReceiptBytes(ss[j]) {
        ReceiptBytesInjective(rs[i], ss[j]);
      }
    }
  }
}
