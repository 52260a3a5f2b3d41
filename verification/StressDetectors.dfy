/**
 The independent detectors of the stress harness, and what they say of any list of receipts:
 duplicate ids, replayed bodies, schema errors and broken chain links.
 */
module StressDetectors {
  import opened Text
  import opened Sorting
  import opened Schemas
  import opened ReceiptStore
  import opened Recovery

  // ----- clock -----

  /** How timestamps are written and read: what is written reads back, and later times are
      lexicographically no smaller, as for ISO 8601 texts of one format. */
  datatype ClockFormat = ClockFormat(format: nat -> string, parse: string -> Option<nat>)

  ghost predicate OrderPreserving(c: ClockFormat)
  {
    && (forall t: nat :: c.parse(c.format(t)) == Some(t))
    && (forall t: nat, u: nat :: t <= u ==> StrLe(c.format(t), c.format(u)))
  }

  type Clock = c: ClockFormat | OrderPreserving(c) ghost witness UnaryClock()

  function Tally(t: nat): (s: string)
    ensures |s| == t
  {
    if t == 0 then "" else "|" + Tally(t - 1)
  }

  lemma {:induction false} TallyOrdered(t: nat, u: nat)
    requires t <= u
    ensures StrLe(Tally(t), Tally(u))
  {
    if t > 0 {
      assert Tally(t)[1..] == Tally(t - 1) && Tally(u)[1..] == Tally(u - 1);
      TallyOrdered(t - 1, u - 1);
    }
  }

  ghost function UnaryClock(): (c: ClockFormat)
    ensures OrderPreserving(c)
  {
    assert forall t: nat, u: nat :: t <= u ==> StrLe(Tally(t), Tally(u)) by {
      forall t: nat, u: nat | t <= u ensures StrLe(Tally(t), Tally(u)) {
        TallyOrdered(t, u);
      }
    }
    ClockFormat((t: nat) => Tally(t), (s: string) => Some(|s|))
  }

  // ----- schema errors -----

  datatype SchemaError =
    | BadSchemaVersion
    | MalformedStatus
    | MissingReceiptId
    | MissingToolName
    | NegativeStepIndex
    | MissingIdentityField
    | TimeoutOrder
    | MalformedTimestamp
    | NegativeDuration

  function When(c: bool, e: SchemaError): seq<SchemaError>
  {
    if c then [e] else []
  }

  function TimeErrors(clock: Clock, r: ExecutionReceipt): seq<SchemaError>
  {
    var start, end := clock.parse(r.startedAt), clock.parse(r.endedAt);
    if start.None? || end.None? then [MalformedTimestamp]
    else When(end.value < start.value, TimeoutOrder)
  }

  predicate KnownStatus(status: string)
  {
    status == "ok" || status == "error" || status == "skipped"
  }

  function ReceiptSchemaErrors(clock: Clock, r: ExecutionReceipt): seq<SchemaError>
  {
    When(r.schemaVersion != RECEIPT_SCHEMA, BadSchemaVersion)
      + When(!KnownStatus(r.status), MalformedStatus)
      + When(r.receiptId == "", MissingReceiptId)
      + When(r.toolName == "", MissingToolName)
      + When(r.stepIndex < 0, NegativeStepIndex)
      + When(r.taskId == "" || r.agentId == "" || r.runtimeId == "", MissingIdentityField)
      + TimeErrors(clock, r)
      + When(r.durationMs < 0, NegativeDuration)
  }

  function CountTimeouts(errs: seq<SchemaError>): nat
  {
    if errs == [] then 0 else (if errs[0] == TimeoutOrder then 1 else 0) + CountTimeouts(errs[1..])
  }

  /** Timeout errors, and all other schema errors, over the first `n` receipts. */
  function TimeoutsIn(clock: Clock, rs: seq<ExecutionReceipt>, n: nat): nat
    requires n <= |rs|
  {
    if n == 0 then 0 else TimeoutsIn(clock, rs, n - 1) + CountTimeouts(ReceiptSchemaErrors(clock, rs[n - 1]))
  }

  function SchemaErrorsIn(clock: Clock, rs: seq<ExecutionReceipt>, n: nat): nat
    requires n <= |rs|
  {
    if n == 0 then 0 else SchemaErrorsIn(clock, rs, n - 1) + |ReceiptSchemaErrors(clock, rs[n - 1])|
  }

  lemma {:induction false} CountTimeoutsBound(errs: seq<SchemaError>)
    ensures CountTimeouts(errs) <= |errs|
  {
    if errs != [] {
      CountTimeoutsBound(errs[1..]);
    }
  }

  lemma {:induction false} TimeoutsAreErrors(clock: Clock, rs: seq<ExecutionReceipt>, n: nat)
    requires n <= |rs|
    ensures TimeoutsIn(clock, rs, n) <= SchemaErrorsIn(clock, rs, n)
    ensures SchemaErrorsIn(clock, rs, n) == 0 <==> forall i :: 0 <= i < n ==> ReceiptSchemaErrors(clock, rs[i]) == []
  {
    hide ReceiptSchemaErrors;
    if n > 0 {
      TimeoutsAreErrors(clock, rs, n - 1);
      CountTimeoutsBound(ReceiptSchemaErrors(clock, rs[n - 1]));
    }
  }

  // ----- duplicate ids -----

  function IdSet(rs: seq<ExecutionReceipt>): set<string>
  {
    set r | r in rs :: r.receiptId
  }

  datatype Count = Count(key: string, n: nat)

  function AddCount(counts: seq<Count>, key: string): seq<Count>
  {
    if counts == [] then [Count(key, 1)]
    else if counts[0].key == key then [Count(key, counts[0].n + 1)] + counts[1..]
    else [counts[0]] + AddCount(counts[1..], key)
  }

  function SumCounts(counts: seq<Count>): nat
  {
    if counts == [] then 0 else counts[0].n + SumCounts(counts[1..])
  }

  function CountKeys(counts: seq<Count>): set<string>
  {
    if counts == [] then {} else {counts[0].key} + CountKeys(counts[1..])
  }

  ghost predicate CountsOk(counts: seq<Count>)
  {
    && (forall i :: 0 <= i < |counts| ==> counts[i].n >= 1)
    && |CountKeys(counts)| == |counts|
  }

  lemma {:induction false} AddCountAdds(counts: seq<Count>, key: string)
    ensures SumCounts(AddCount(counts, key)) == SumCounts(counts) + 1
    ensures CountKeys(AddCount(counts, key)) == CountKeys(counts) + {key}
    ensures |AddCount(counts, key)| == |counts| + if key in CountKeys(counts) then 0 else 1
  {
    if counts != [] {
      var next := AddCount(counts, key);
      if counts[0].key == key {
        assert next[1..] == counts[1..];
      } else {
        AddCountAdds(counts[1..], key);
        assert next[1..] == AddCount(counts[1..], key);
      }
    }
  }

  lemma {:induction false} AddCountPositive(counts: seq<Count>, key: string)
    requires forall i :: 0 <= i < |counts| ==> counts[i].n >= 1
    ensures forall i :: 0 <= i < |AddCount(counts, key)| ==> AddCount(counts, key)[i].n >= 1
  {
    if counts != [] && counts[0].key != key {
      AddCountPositive(counts[1..], key);
    }
  }

  /** How many receipts are redundant beyond the first of each id. */
  function DuplicateExtra(rs: seq<ExecutionReceipt>): int
  {
    |rs| - |IdSet(rs)|
  }

  method CountIds(rs: seq<ExecutionReceipt>) returns (counts: seq<Count>)
    ensures CountsOk(counts) && SumCounts(counts) == |rs| && CountKeys(counts) == IdSet(rs)
  {
    hide IdSet;
    counts := [];
    EmptyIds();
    for i := 0 to |rs|
      invariant CountsOk(counts) && SumCounts(counts) == i && CountKeys(counts) == IdSet(rs[..i])
    {
      IdSetStep(rs[..i + 1]);
      assert rs[..i + 1][..i] == rs[..i];
      AddCountAdds(counts, rs[i].receiptId);
      AddCountPositive(counts, rs[i].receiptId);
      counts := AddCount(counts, rs[i].receiptId);
    }
    assert rs[..|rs|] == rs;
  }

  method DuplicateExtraCount(rs: seq<ExecutionReceipt>) returns (extra: int)
    ensures extra == DuplicateExtra(rs)
  {
    hide IdSet;
    var counts := CountIds(rs);
    extra := 0;
    for i := 0 to |counts|
      invariant extra == SumCounts(counts) - SumCounts(counts[i..]) - i
    {
      assert counts[i..][1..] == counts[i + 1..];
      extra := extra + if counts[i].n - 1 > 0 then counts[i].n - 1 else 0;
    }
  }

  predicate SharesId(rs: seq<ExecutionReceipt>, i: nat)
    requires i < |rs|
  {
    exists j :: 0 <= j < |rs| && j != i && rs[j].receiptId == rs[i].receiptId
  }

  lemma IdSetStep(rs: seq<ExecutionReceipt>)
    requires rs != []
    ensures IdSet(rs) == IdSet(rs[..|rs| - 1]) + {rs[|rs| - 1].receiptId}
  {
    assert rs == rs[..|rs| - 1] + [rs[|rs| - 1]];
  }

  lemma DistinctStep(rs: seq<ExecutionReceipt>)
    requires rs != []
    ensures DistinctIds(rs) <==> DistinctIds(rs[..|rs| - 1]) && rs[|rs| - 1].receiptId !in IdSet(rs[..|rs| - 1])
  {
    var n := |rs| - 1;
    if DistinctIds(rs[..n]) && rs[n].receiptId !in IdSet(rs[..n]) {
      forall i | 0 <= i < n ensures rs[i].receiptId != rs[n].receiptId {
        assert rs[..n][i] in rs[..n];
      }
    }
  }

  /** The ids of a list are as many as its receipts exactly when they are all different. */
  lemma {:induction false} IdCardinality(rs: seq<ExecutionReceipt>)
    ensures |IdSet(rs)| <= |rs|
    ensures |IdSet(rs)| == |rs| <==> DistinctIds(rs)
  {
    hide IdSet, DistinctIds;
    if rs == [] {
      EmptyIds();
    } else {
      IdCardinality(rs[..|rs| - 1]);
      IdSetStep(rs);
      DistinctStep(rs);
    }
  }

  lemma EmptyIds()
    ensures IdSet([]) == {} && DistinctIds([])
  {}

  // ----- replayed bodies -----

  /** Receipt `i`'s body digest also occurs under another id. */
  predicate Replayed(d: Digester, rs: seq<ExecutionReceipt>, i: nat)
    requires i < |rs|
  {
    exists j :: 0 <= j < |rs| && d.body(rs[j]) == d.body(rs[i]) && rs[j].receiptId != rs[i].receiptId
  }

  /** The body digests, among those of the first `n` receipts, that occur under more than one id. */
  function ReplayedUpTo(d: Digester, rs: seq<ExecutionReceipt>, n: nat): set<string>
    requires n <= |rs|
  {
    if n == 0 then {}
    else ReplayedUpTo(d, rs, n - 1) + if Replayed(d, rs, n - 1) then {d.body(rs[n - 1])} else {}
  }

  function ReplayedBodies(d: Digester, rs: seq<ExecutionReceipt>): set<string>
  {
    ReplayedUpTo(d, rs, |rs|)
  }

  lemma {:induction false} ReplayedAre(d: Digester, rs: seq<ExecutionReceipt>, n: nat, hash: string)
    requires n <= |rs|
    ensures hash in ReplayedUpTo(d, rs, n) <==>
      exists i :: 0 <= i < n && Replayed(d, rs, i) && d.body(rs[i]) == hash
  {
    hide Replayed;
    if n > 0 {
      ReplayedAre(d, rs, n - 1, hash);
    }
  }

  datatype Bodies = Bodies(hash: string, ids: set<string>)

  function AddBody(table: seq<Bodies>, hash: string, id: string): seq<Bodies>
  {
    if table == [] then [Bodies(hash, {id})]
    else if table[0].hash == hash then [Bodies(hash, table[0].ids + {id})] + table[1..]
    else [table[0]] + AddBody(table[1..], hash, id)
  }

  function IdsOfBody(d: Digester, rs: seq<ExecutionReceipt>, hash: string): set<string>
  {
    set r | r in rs && d.body(r) == hash :: r.receiptId
  }

  /** The table lists the body digests of `rs`, each once, with the ids it occurs under. */
  ghost predicate TableOk(d: Digester, rs: seq<ExecutionReceipt>, table: seq<Bodies>)
  {
    && (forall i, j :: 0 <= i < j < |table| ==> table[i].hash != table[j].hash)
    && (forall i :: 0 <= i < |table| ==> table[i].ids == IdsOfBody(d, rs, table[i].hash) && table[i].ids != {})
    && (forall r :: r in rs ==> exists i :: 0 <= i < |table| && table[i].hash == d.body(r))
  }

  lemma {:induction false} AddBodyIs(table: seq<Bodies>, hash: string, id: string) returns (k: nat)
    requires forall i, j :: 0 <= i < j < |table| ==> table[i].hash != table[j].hash
    ensures var next := AddBody(table, hash, id);
      && k < |next|
      && (k < |table| ==> table[k].hash == hash && next == table[k := Bodies(hash, table[k].ids + {id})])
      && (k == |table| ==> next == table + [Bodies(hash, {id})])
      && (k == |table| ==> forall i :: 0 <= i < |table| ==> table[i].hash != hash)
      && k <= |table|
  {
    if table == [] {
      k := 0;
    } else if table[0].hash == hash {
      k := 0;
    } else {
      var j := AddBodyIs(table[1..], hash, id);
      k := j + 1;
    }
  }

  lemma IdsOfBodyStep(d: Digester, rs: seq<ExecutionReceipt>, r: ExecutionReceipt, hash: string)
    ensures IdsOfBody(d, rs + [r], hash) == IdsOfBody(d, rs, hash) + if d.body(r) == hash then {r.receiptId} else {}
  {}

  lemma AddBodyRows(d: Digester, rs: seq<ExecutionReceipt>, table: seq<Bodies>, r: ExecutionReceipt)
    requires TableOk(d, rs, table)
    ensures var next := AddBody(table, d.body(r), r.receiptId);
      && (forall i, j :: 0 <= i < j < |next| ==> next[i].hash != next[j].hash)
      && (forall i :: 0 <= i < |next| ==> next[i].ids == IdsOfBody(d, rs + [r], next[i].hash) && next[i].ids != {})
  {
    var next := AddBody(table, d.body(r), r.receiptId);
    var k := AddBodyIs(table, d.body(r), r.receiptId);
    forall i | 0 <= i < |next| ensures next[i].ids == IdsOfBody(d, rs + [r], next[i].hash) && next[i].ids != {} {
      IdsOfBodyStep(d, rs, r, next[i].hash);
      if i == k == |table| {
        assert IdsOfBody(d, rs, d.body(r)) == {} by {
          forall s | s in rs ensures d.body(s) != d.body(r) {
            var j :| 0 <= j < |table| && table[j].hash == d.body(s);
          }
        }
      }
    }
  }

  lemma AddBodyKeeps(d: Digester, rs: seq<ExecutionReceipt>, table: seq<Bodies>, r: ExecutionReceipt)
    requires TableOk(d, rs, table)
    ensures TableOk(d, rs + [r], AddBody(table, d.body(r), r.receiptId))
  {
    var next := AddBody(table, d.body(r), r.receiptId);
    AddBodyRows(d, rs, table, r);
    var k := AddBodyIs(table, d.body(r), r.receiptId);
    forall s | s in rs + [r] ensures exists i :: 0 <= i < |next| && next[i].hash == d.body(s) {
      if s == r {
        assert next[k].hash == d.body(s);
      } else {
        var i :| 0 <= i < |table| && table[i].hash == d.body(s);
        assert next[i].hash == d.body(s);
      }
    }
  }

  method BuildBodies(d: Digester, rs: seq<ExecutionReceipt>) returns (table: seq<Bodies>)
    ensures TableOk(d, rs, table)
  {
    table := [];
    for i := 0 to |rs|
      invariant TableOk(d, rs[..i], table)
    {
      AddBodyKeeps(d, rs[..i], table, rs[i]);
      assert rs[..i + 1] == rs[..i] + [rs[i]];
      table := AddBody(table, d.body(rs[i]), rs[i].receiptId);
    }
    assert rs[..|rs|] == rs;
  }

  lemma TwoIds(ids: set<string>, a: string, b: string)
    requires a in ids && b in ids && a != b
    ensures |ids| > 1
  {
    var rest := ids - {a, b};
    assert ids == {a, b} + rest;
  }

  lemma SeveralIds(ids: set<string>) returns (a: string, b: string)
    requires |ids| > 1
    ensures a in ids && b in ids && a != b
  {
    a :| a in ids;
    assert |ids - {a}| == |ids| - 1;
    b :| b in ids - {a};
  }

  lemma SeveralIdsReplay(d: Digester, rs: seq<ExecutionReceipt>, hash: string)
    requires |IdsOfBody(d, rs, hash)| > 1
    ensures hash in ReplayedBodies(d, rs)
  {
    var a, b := SeveralIds(IdsOfBody(d, rs, hash));
    var r :| r in rs && d.body(r) == hash && r.receiptId == a;
    var s :| s in rs && d.body(s) == hash && s.receiptId == b;
    var i :| 0 <= i < |rs| && rs[i] == r;
    var j :| 0 <= j < |rs| && rs[j] == s;
    assert Replayed(d, rs, i);
    ReplayedAre(d, rs, |rs|, hash);
  }

  lemma ReplayHasSeveralIds(d: Digester, rs: seq<ExecutionReceipt>, hash: string)
    requires hash in ReplayedBodies(d, rs)
    ensures |IdsOfBody(d, rs, hash)| > 1
  {
    ReplayedAre(d, rs, |rs|, hash);
    var i :| 0 <= i < |rs| && Replayed(d, rs, i) && d.body(rs[i]) == hash;
    var j :| 0 <= j < |rs| && d.body(rs[j]) == d.body(rs[i]) && rs[j].receiptId != rs[i].receiptId;
    assert rs[i] in rs && rs[j] in rs;
    TwoIds(IdsOfBody(d, rs, hash), rs[i].receiptId, rs[j].receiptId);
  }

  /** A row of the table holds several ids exactly when its body digest is replayed. */
  lemma RowReplayed(d: Digester, rs: seq<ExecutionReceipt>, table: seq<Bodies>, k: nat)
    requires TableOk(d, rs, table) && k < |table|
    ensures |table[k].ids| > 1 <==> table[k].hash in ReplayedBodies(d, rs)
  {
    hide ReplayedBodies, IdsOfBody;
    if |IdsOfBody(d, rs, table[k].hash)| > 1 {
      SeveralIdsReplay(d, rs, table[k].hash);
    }
    if table[k].hash in ReplayedBodies(d, rs) {
      ReplayHasSeveralIds(d, rs, table[k].hash);
    }
  }

  /** The body digests of the first `k` rows that hold several ids. */
  function SeveralUpTo(table: seq<Bodies>, k: nat): set<string>
    requires k <= |table|
  {
    if k == 0 then {}
    else SeveralUpTo(table, k - 1) + if |table[k - 1].ids| > 1 then {table[k - 1].hash} else {}
  }

  lemma {:induction false} SeveralAre(table: seq<Bodies>, k: nat, hash: string)
    requires k <= |table|
    ensures hash in SeveralUpTo(table, k) <==>
      exists i :: 0 <= i < k && |table[i].ids| > 1 && table[i].hash == hash
  {
    if k > 0 {
      SeveralAre(table, k - 1, hash);
    }
  }

  lemma SeveralAreReplayed(d: Digester, rs: seq<ExecutionReceipt>, table: seq<Bodies>)
    requires TableOk(d, rs, table)
    ensures SeveralUpTo(table, |table|) == ReplayedBodies(d, rs)
  {
    hide ReplayedBodies, TableOk, SeveralUpTo;
    forall hash ensures hash in SeveralUpTo(table, |table|) <==> hash in ReplayedBodies(d, rs) {
      SeveralAre(table, |table|, hash);
      forall k | 0 <= k < |table| ensures |table[k].ids| > 1 <==> table[k].hash in ReplayedBodies(d, rs) {
        RowReplayed(d, rs, table, k);
      }
      if hash in ReplayedBodies(d, rs) {
        var k := ReplayedHasRow(d, rs, table, hash);
      }
    }
  }

  /** A replayed body digest heads a row of the table. */
  lemma ReplayedHasRow(d: Digester, rs: seq<ExecutionReceipt>, table: seq<Bodies>, hash: string) returns (k: nat)
    requires TableOk(d, rs, table) && hash in ReplayedBodies(d, rs)
    ensures k < |table| && table[k].hash == hash
  {
    ReplayedAre(d, rs, |rs|, hash);
    var i :| 0 <= i < |rs| && Replayed(d, rs, i) && d.body(rs[i]) == hash;
    assert rs[i] in rs;
    k :| 0 <= k < |table| && table[k].hash == hash;
  }

  lemma FreshRow(d: Digester, rs: seq<ExecutionReceipt>, table: seq<Bodies>, k: nat)
    requires TableOk(d, rs, table) && k < |table|
    ensures table[k].hash !in SeveralUpTo(table, k)
  {
    SeveralAre(table, k, table[k].hash);
  }

  /** Same execution body under several ids: the number of such bodies. */
  method ReplayEventCount(d: Digester, rs: seq<ExecutionReceipt>) returns (events: nat)
    ensures events == |ReplayedBodies(d, rs)|
  {
    hide ReplayedBodies, TableOk;
    var table := BuildBodies(d, rs);
    events := 0;
    for k := 0 to |table|
      invariant events == |SeveralUpTo(table, k)|
    {
      FreshRow(d, rs, table, k);
      if |table[k].ids| > 1 {
        events := events + 1;
      }
    }
    SeveralAreReplayed(d, rs, table);
  }

  lemma NoReplay(d: Digester, rs: seq<ExecutionReceipt>)
    ensures |ReplayedBodies(d, rs)| == 0 <==> forall i :: 0 <= i < |rs| ==> !Replayed(d, rs, i)
  {
    forall i | 0 <= i < |rs| && Replayed(d, rs, i) ensures d.body(rs[i]) in ReplayedBodies(d, rs) {
      ReplayedAre(d, rs, |rs|, d.body(rs[i]));
    }
    forall h | h in ReplayedBodies(d, rs) ensures exists i :: 0 <= i < |rs| && Replayed(d, rs, i) {
      ReplayedAre(d, rs, |rs|, h);
    }
    if |ReplayedBodies(d, rs)| > 0 {
      var h :| h in ReplayedBodies(d, rs);
    }
  }

  // ----- chain links -----

  datatype LinkError = UnexpectedPrevOnFirst | ForgedPrevHash

  function LinkErrors(d: Digester, rs: seq<ExecutionReceipt>, n: nat): seq<LinkError>
    requires n <= |rs|
  {
    if n == 0 then []
    else if !BadLink(d, rs, n - 1) then LinkErrors(d, rs, n - 1)
    else LinkErrors(d, rs, n - 1) + [if n == 1 then UnexpectedPrevOnFirst else ForgedPrevHash]
  }

  method ChainLinkErrors(d: Digester, sorted: seq<ExecutionReceipt>) returns (errs: seq<LinkError>)
    ensures errs == LinkErrors(d, sorted, |sorted|)
  {
    errs := [];
    for i := 0 to |sorted|
      invariant errs == LinkErrors(d, sorted, i)
    {
      if i == 0 {
        if sorted[i].stepIndex == 0 && sorted[i].prevReceiptHash != "" {
          errs := errs + [UnexpectedPrevOnFirst];
        }
        continue;
      }
      var prev := sorted[i - 1];
      if sorted[i].prevReceiptHash != d.record(prev) {
        errs := errs + [ForgedPrevHash];
      }
    }
  }

  lemma {:induction false} NoLinkErrors(d: Digester, rs: seq<ExecutionReceipt>, n: nat)
    requires n <= |rs|
    ensures LinkErrors(d, rs, n) == [] <==> forall i :: 0 <= i < n ==> !BadLink(d, rs, i)
  {
    if n > 0 {
      NoLinkErrors(d, rs, n - 1);
    }
  }

  /** The recovery diagnostics report nothing exactly when the chain is not empty, counts its steps
      from zero and the stress harness finds no link error in the sorted chain. */
  lemma CheckersAgree(d: Digester, chain: seq<ExecutionReceipt>)
    ensures NoGaps(d, chain) <==>
      && chain != [] && Contiguous(SortReceipts(chain))
      && LinkErrors(d, SortReceipts(chain), |chain|) == []
  {
    NoLinkErrors(d, SortReceipts(chain), |chain|);
  }
}
