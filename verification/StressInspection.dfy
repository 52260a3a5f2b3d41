/** How the stress harness judges one agent's list of receipts, receipt by receipt and as a whole. */
module StressInspection {
  import opened Text
  import opened Sorting
  import opened Schemas
  import opened ReceiptStore
  import opened Recovery
  import opened StressDetectors

  // ----- positions after sorting: receipts keep their identity, equal copies included -----

  datatype Tagged = Tagged(index: nat, receipt: ExecutionReceipt)

  predicate TagLe(a: Tagged, b: Tagged)
  {
    ReceiptLe(a.receipt, b.receipt)
  }

  function Tags(rs: seq<ExecutionReceipt>, k: nat): (tags: seq<Tagged>)
    requires k <= |rs|
    ensures |tags| == |rs| - k
    ensures forall i :: 0 <= i < |tags| ==> tags[i] == Tagged(k + i, rs[k + i])
    decreases |rs| - k
  {
    if k == |rs| then [] else [Tagged(k, rs[k])] + Tags(rs, k + 1)
  }

  function Untag(tags: seq<Tagged>): (rs: seq<ExecutionReceipt>)
    ensures |rs| == |tags| && forall i :: 0 <= i < |tags| ==> rs[i] == tags[i].receipt
  {
    if tags == [] then [] else [tags[0].receipt] + Untag(tags[1..])
  }

  lemma {:induction false} UntagInsert(x: Tagged, tags: seq<Tagged>)
    ensures Untag(Insert(x, tags, TagLe)) == Insert(x.receipt, Untag(tags), ReceiptLe)
  {
    if tags != [] && !TagLe(x, tags[0]) {
      UntagInsert(x, tags[1..]);
      assert Untag(tags)[1..] == Untag(tags[1..]);
      assert Insert(x, tags, TagLe)[1..] == Insert(x, tags[1..], TagLe);
    }
  }

  lemma {:induction false} UntagSort(tags: seq<Tagged>)
    ensures Untag(SortBy(tags, TagLe)) == SortBy(Untag(tags), ReceiptLe)
  {
    if tags != [] {
      UntagSort(tags[1..]);
      UntagInsert(tags[0], SortBy(tags[1..], TagLe));
      assert Untag(tags)[1..] == Untag(tags[1..]);
    }
  }

  function SortedTags(rs: seq<ExecutionReceipt>): (tags: seq<Tagged>)
    ensures multiset(tags) == multiset(Tags(rs, 0)) && |tags| == |rs|
  {
    SortPermutes(Tags(rs, 0), TagLe);
    SortBy(Tags(rs, 0), TagLe)
  }

  lemma SortedTagsAre(rs: seq<ExecutionReceipt>)
    ensures Untag(SortedTags(rs)) == SortReceipts(rs)
  {
    UntagSort(Tags(rs, 0));
    assert Untag(Tags(rs, 0)) == rs;
  }

  predicate HasTag(tags: seq<Tagged>, i: nat, k: nat)
  {
    exists j :: k <= j < |tags| && tags[j].index == i
  }

  lemma TagsDistinct(rs: seq<ExecutionReceipt>)
    ensures var tags := SortedTags(rs);
      && (forall j :: 0 <= j < |tags| ==> tags[j].index < |rs| && tags[j].receipt == rs[tags[j].index])
      && (forall i, j :: 0 <= i < j < |tags| ==> tags[i].index != tags[j].index)
  {
    hide SortedTags;
    var plain, tags := Tags(rs, 0), SortedTags(rs);
    SameElements(plain, tags);
    forall j | 0 <= j < |tags| ensures tags[j].index < |rs| && tags[j].receipt == rs[tags[j].index] {
      assert tags[j] in plain;
    }
    forall i, j | 0 <= i < j < |tags| ensures tags[i].index != tags[j].index {
      assert tags[i] in plain && tags[j] in plain;
      if tags[i] == tags[j] {
        TwiceIn(tags, i, j);
        TagOnce(rs, 0, tags[i]);
      }
    }
  }

  /** The sorted tags carry each index once, with its receipt. */
  lemma TagsBijective(rs: seq<ExecutionReceipt>)
    ensures var tags := SortedTags(rs);
      && (forall j :: 0 <= j < |tags| ==> tags[j].index < |rs| && tags[j].receipt == rs[tags[j].index])
      && (forall i, j :: 0 <= i < j < |tags| ==> tags[i].index != tags[j].index)
      && (forall i :: 0 <= i < |rs| ==> HasTag(tags, i, 0))
  {
    hide SortedTags;
    var plain, tags := Tags(rs, 0), SortedTags(rs);
    TagsDistinct(rs);
    SameElements(plain, tags);
    forall i | 0 <= i < |rs| ensures HasTag(tags, i, 0) {
      assert plain[i] in tags;
      var j :| 0 <= j < |tags| && tags[j] == plain[i];
      assert tags[j].index == i;
    }
  }

  lemma {:induction false} TagOnce(rs: seq<ExecutionReceipt>, k: nat, t: Tagged)
    requires k <= |rs|
    ensures multiset(Tags(rs, k))[t] <= 1
    decreases |rs| - k
  {
    if k < |rs| {
      TagOnce(rs, k + 1, t);
      var rest := Tags(rs, k + 1);
      assert Tagged(k, rs[k]) !in rest;
      assert Tags(rs, k) == [Tagged(k, rs[k])] + rest;
    }
  }

  /** Where receipt `i` of the list stands after sorting. */
  function Position(rs: seq<ExecutionReceipt>, i: nat): (pos: nat)
    requires i < |rs|
    ensures pos < |rs| && SortedTags(rs)[pos].index == i
  {
    TagsBijective(rs);
    FindTag(SortedTags(rs), i, 0)
  }

  function FindTag(tags: seq<Tagged>, i: nat, k: nat): (pos: nat)
    requires HasTag(tags, i, k)
    ensures k <= pos < |tags| && tags[pos].index == i
    decreases |tags| - k
  {
    if tags[k].index == i then k else FindTag(tags, i, k + 1)
  }

  /** The `bad_first_prev` or `forged_prev` tag of receipt `i`. */
  predicate LinkTag(d: Digester, rs: seq<ExecutionReceipt>, i: nat)
    requires i < |rs|
  {
    BadLink(d, SortReceipts(rs), Position(rs, i))
  }

  ghost function TaggedBad(d: Digester, rs: seq<ExecutionReceipt>): set<int>
  {
    set i | 0 <= i < |rs| && LinkTag(d, rs, i)
  }

  /** The list indices of the badly linked receipts among the first `n` of the sorted chain. */
  function BadIndices(d: Digester, sorted: seq<ExecutionReceipt>, tags: seq<Tagged>, n: nat): set<int>
    requires n <= |sorted| == |tags|
  {
    if n == 0 then {}
    else BadIndices(d, sorted, tags, n - 1) + if BadLink(d, sorted, n - 1) then {tags[n - 1].index} else {}
  }

  lemma {:induction false} BadIndicesAre(d: Digester, sorted: seq<ExecutionReceipt>, tags: seq<Tagged>, n: nat, i: int)
    requires n <= |sorted| == |tags|
    ensures i in BadIndices(d, sorted, tags, n) <==>
      exists j :: 0 <= j < n && BadLink(d, sorted, j) && tags[j].index == i
  {
    hide BadLink;
    if n > 0 {
      BadIndicesAre(d, sorted, tags, n - 1, i);
    }
  }

  lemma {:induction false} BadIndicesCount(d: Digester, sorted: seq<ExecutionReceipt>, tags: seq<Tagged>, n: nat)
    requires n <= |sorted| == |tags|
    requires forall i, j :: 0 <= i < j < |tags| ==> tags[i].index != tags[j].index
    ensures |BadIndices(d, sorted, tags, n)| == |LinkErrors(d, sorted, n)|
  {
    hide BadLink;
    if n > 0 {
      BadIndicesCount(d, sorted, tags, n - 1);
      BadIndicesAre(d, sorted, tags, n - 1, tags[n - 1].index);
    }
  }

  lemma BadIndexTagged(d: Digester, rs: seq<ExecutionReceipt>, i: int)
    ensures i in BadIndices(d, SortReceipts(rs), SortedTags(rs), |rs|) <==> 0 <= i < |rs| && LinkTag(d, rs, i)
  {
    hide BadLink, SortReceipts, SortedTags, HasTag;
    var sorted, tags := SortReceipts(rs), SortedTags(rs);
    TagsBijective(rs);
    BadIndicesAre(d, sorted, tags, |rs|, i);
    if 0 <= i < |rs| {
      var p := Position(rs, i);
      assert forall j :: 0 <= j < |rs| && tags[j].index == i ==> j == p;
    }
  }

  /** The link tags given receipt by receipt number exactly the link errors of the sorted chain. */
  lemma LinkTagsNumberErrors(d: Digester, rs: seq<ExecutionReceipt>)
    ensures |TaggedBad(d, rs)| == |LinkErrors(d, SortReceipts(rs), |rs|)|
  {
    hide LinkTag, SortReceipts, SortedTags, HasTag, LinkErrors, BadIndices;
    TagsBijective(rs);
    BadIndicesCount(d, SortReceipts(rs), SortedTags(rs), |rs|);
    var image := BadIndices(d, SortReceipts(rs), SortedTags(rs), |rs|);
    forall i ensures i in image <==> i in TaggedBad(d, rs) {
      BadIndexTagged(d, rs, i);
    }
    assert image == TaggedBad(d, rs);
  }

  // ----- the verdict on each receipt and on the agent -----

  predicate Invalid(d: Digester, clock: Clock, rs: seq<ExecutionReceipt>, i: nat)
    requires i < |rs|
  {
    ReceiptSchemaErrors(clock, rs[i]) != [] || SharesId(rs, i) || Replayed(d, rs, i) || LinkTag(d, rs, i)
  }

  ghost function InvalidSet(d: Digester, clock: Clock, rs: seq<ExecutionReceipt>, n: nat): set<int>
    requires n <= |rs|
  {
    set i | 0 <= i < n && Invalid(d, clock, rs, i)
  }

  ghost predicate AgentOk(d: Digester, clock: Clock, rs: seq<ExecutionReceipt>)
  {
    && DuplicateExtra(rs) == 0
    && |ReplayedBodies(d, rs)| == 0
    && (forall i :: 0 <= i < |rs| ==> ReceiptSchemaErrors(clock, rs[i]) == [])
    && LinkErrors(d, SortReceipts(rs), |rs|) == []
  }

  lemma SharedIds(rs: seq<ExecutionReceipt>)
    ensures DuplicateExtra(rs) == 0 <==> forall i :: 0 <= i < |rs| ==> !SharesId(rs, i)
  {
    IdCardinality(rs);
    if DistinctIds(rs) {
      forall i | 0 <= i < |rs| ensures !SharesId(rs, i) {
        forall j | 0 <= j < |rs| && j != i ensures rs[j].receiptId != rs[i].receiptId {}
      }
    } else {
      var i, j :| 0 <= i < j < |rs| && rs[i].receiptId == rs[j].receiptId;
      assert SharesId(rs, i);
    }
  }

  lemma NoneInvalid(d: Digester, clock: Clock, rs: seq<ExecutionReceipt>)
    ensures InvalidSet(d, clock, rs, |rs|) == {} <==> forall i :: 0 <= i < |rs| ==> !Invalid(d, clock, rs, i)
  {
    hide Invalid;
    forall i | 0 <= i < |rs| && Invalid(d, clock, rs, i) ensures i in InvalidSet(d, clock, rs, |rs|) {}
  }

  /** An agent passes as a whole exactly when none of its receipts is invalid. */
  lemma AgentOkIffAllValid(d: Digester, clock: Clock, rs: seq<ExecutionReceipt>)
    ensures AgentOk(d, clock, rs) <==> InvalidSet(d, clock, rs, |rs|) == {}
  {
    hide InvalidSet, SharesId, Replayed, LinkTag, ReceiptSchemaErrors, DuplicateExtra, ReplayedBodies, TaggedBad;
    SharedIds(rs);
    NoReplay(d, rs);
    LinkTagsNumberErrors(d, rs);
    NoTags(d, rs);
    NoneInvalid(d, clock, rs);
    if InvalidSet(d, clock, rs, |rs|) == {} {
      forall i | 0 <= i < |rs|
        ensures ReceiptSchemaErrors(clock, rs[i]) == [] && !SharesId(rs, i) && !Replayed(d, rs, i) && !LinkTag(d, rs, i)
      {
        assert !Invalid(d, clock, rs, i);
      }
    }
  }

  lemma NoTags(d: Digester, rs: seq<ExecutionReceipt>)
    ensures |TaggedBad(d, rs)| == 0 <==> forall i :: 0 <= i < |rs| ==> !LinkTag(d, rs, i)
  {
    forall i | 0 <= i < |rs| && LinkTag(d, rs, i) ensures i in TaggedBad(d, rs) {}
  }

  /** What the harness adds up for one agent before it tries to build a bundle. */
  datatype Findings = Findings(
    receipts: nat,
    valid: nat,
    invalid: nat,
    duplicates: int,
    replays: nat,
    timeouts: nat,
    malformed: nat,
    forged: nat,
    linkErrors: nat,
    ok: bool)

  ghost function Judge(d: Digester, clock: Clock, rs: seq<ExecutionReceipt>): (f: Findings)
    ensures f.valid + f.invalid == f.receipts
  {
    var invalid := |InvalidSet(d, clock, rs, |rs|)|;
    var timeouts := TimeoutsIn(clock, rs, |rs|);
    var errs := LinkErrors(d, SortReceipts(rs), |rs|);
    InvalidBound(d, clock, rs, |rs|);
    TimeoutsAreErrors(clock, rs, |rs|);
    Findings(|rs|, |rs| - invalid, invalid, DuplicateExtra(rs), |ReplayedBodies(d, rs)|, timeouts,
             SchemaErrorsIn(clock, rs, |rs|) - timeouts, Forged(errs), |errs|, AgentOk(d, clock, rs))
  }

  lemma {:induction false} InvalidBound(d: Digester, clock: Clock, rs: seq<ExecutionReceipt>, n: nat)
    requires n <= |rs|
    ensures |InvalidSet(d, clock, rs, n)| <= n
  {
    hide Invalid;
    if n > 0 {
      InvalidBound(d, clock, rs, n - 1);
      assert InvalidSet(d, clock, rs, n)
          == InvalidSet(d, clock, rs, n - 1) + if Invalid(d, clock, rs, n - 1) then {n - 1} else {};
    }
  }

  function Forged(errs: seq<LinkError>): nat
  {
    if errs == [] then 0 else (if errs[0] == ForgedPrevHash then 1 else 0) + Forged(errs[1..])
  }

  method CountForged(errs: seq<LinkError>) returns (n: nat)
    ensures n == Forged(errs)
  {
    n := 0;
    for i := 0 to |errs|
      invariant n + Forged(errs[i..]) == Forged(errs)
    {
      if errs[i] == ForgedPrevHash {
        n := n + 1;
      }
    }
  }

  method CountSchemaErrors(clock: Clock, rs: seq<ExecutionReceipt>) returns (timeouts: nat, malformed: nat)
    ensures timeouts == TimeoutsIn(clock, rs, |rs|)
    ensures timeouts + malformed == SchemaErrorsIn(clock, rs, |rs|)
  {
    hide ReceiptSchemaErrors;
    timeouts, malformed := 0, 0;
    for i := 0 to |rs|
      invariant timeouts == TimeoutsIn(clock, rs, i) && timeouts + malformed == SchemaErrorsIn(clock, rs, i)
    {
      var errs := ReceiptSchemaErrors(clock, rs[i]);
      var here := 0;
      for j := 0 to |errs|
        invariant here + CountTimeouts(errs[j..]) == CountTimeouts(errs)
        invariant timeouts == TimeoutsIn(clock, rs, i) + here
        invariant timeouts + malformed == SchemaErrorsIn(clock, rs, i) + j
      {
        if errs[j] == TimeoutOrder {
          here := here + 1;
          timeouts := timeouts + 1;
        } else {
          malformed := malformed + 1;
        }
      }
    }
  }

  method CountInvalid(d: Digester, clock: Clock, rs: seq<ExecutionReceipt>) returns (valid: nat, invalid: nat)
    ensures valid + invalid == |rs| && invalid == |InvalidSet(d, clock, rs, |rs|)|
  {
    hide Invalid;
    valid, invalid := 0, 0;
    for i := 0 to |rs|
      invariant valid + invalid == i && invalid == |InvalidSet(d, clock, rs, i)|
    {
      assert InvalidSet(d, clock, rs, i + 1)
          == InvalidSet(d, clock, rs, i) + if Invalid(d, clock, rs, i) then {i} else {};
      if Invalid(d, clock, rs, i) {
        invalid := invalid + 1;
      } else {
        valid := valid + 1;
      }
    }
  }

  lemma SchemaClean(clock: Clock, rs: seq<ExecutionReceipt>)
    ensures SchemaErrorsIn(clock, rs, |rs|) == 0 <==> forall i :: 0 <= i < |rs| ==> ReceiptSchemaErrors(clock, rs[i]) == []
  {
    TimeoutsAreErrors(clock, rs, |rs|);
  }

  method Inspect(d: Digester, clock: Clock, rs: seq<ExecutionReceipt>) returns (f: Findings)
    ensures f == Judge(d, clock, rs)
  {
    hide InvalidSet, DuplicateExtra, ReplayedBodies, TimeoutsIn, SchemaErrorsIn, LinkErrors, ReceiptSchemaErrors,
         SortReceipts, Forged;
    var duplicates := DuplicateExtraCount(rs);
    var replays := ReplayEventCount(d, rs);
    var errs := ChainLinkErrors(d, SortReceipts(rs));
    var forged := CountForged(errs);
    var timeouts, malformed := CountSchemaErrors(clock, rs);
    var valid, invalid := CountInvalid(d, clock, rs);
    SchemaClean(clock, rs);
    NoneForgedIn(errs);
    var ok := duplicates == 0 && replays == 0 && forged == 0 && timeouts + malformed == 0 && errs == [];
    f := Findings(|rs|, valid, invalid, duplicates, replays, timeouts, malformed, forged, |errs|, ok);
  }

  lemma NoneForgedIn(errs: seq<LinkError>)
    ensures errs == [] ==> Forged(errs) == 0
  {}
}
