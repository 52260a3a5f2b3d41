/** The write-once receipt store, a Python dictionary from receipt ids to receipts. */
module ReceiptStore {
  import opened Text
  import opened Sorting
  import opened Schemas

  // ----- the two sort keys -----

  /** Key `(step_index, receipt_id)`. */
  predicate ReceiptLe(a: ExecutionReceipt, b: ExecutionReceipt)
  {
    a.stepIndex < b.stepIndex || (a.stepIndex == b.stepIndex && StrLe(a.receiptId, b.receiptId))
  }

  /** Key `step_index`. */
  predicate StepLe(a: ExecutionReceipt, b: ExecutionReceipt)
  {
    a.stepIndex <= b.stepIndex
  }

  lemma ReceiptLeOrders()
    ensures TotalPreorder(ReceiptLe)
  {
    forall a, b ensures ReceiptLe(a, b) || ReceiptLe(b, a) {
      StrLeTotal(a.receiptId, b.receiptId);
    }
    forall a, b, c | ReceiptLe(a, b) && ReceiptLe(b, c) ensures ReceiptLe(a, c) {
      if a.stepIndex == b.stepIndex == c.stepIndex {
        StrLeTransitive(a.receiptId, b.receiptId, c.receiptId);
      }
    }
  }

  lemma StepLeOrders()
    ensures TotalPreorder(StepLe)
  {}

  function SortReceipts(rs: seq<ExecutionReceipt>): (sorted: seq<ExecutionReceipt>)
    ensures multiset(sorted) == multiset(rs) && |sorted| == |rs|
  {
    SortPermutes(rs, ReceiptLe);
    SortBy(rs, ReceiptLe)
  }

  ghost predicate DistinctIds(rs: seq<ExecutionReceipt>)
  {
    forall i, j :: 0 <= i < j < |rs| ==> rs[i].receiptId != rs[j].receiptId
  }

  /** Receipts with different ids have one sorted order, however they arrive. */
  lemma SortReceiptsUnique(rs: seq<ExecutionReceipt>, ss: seq<ExecutionReceipt>)
    requires DistinctIds(rs) && multiset(rs) == multiset(ss)
    ensures SortReceipts(rs) == SortReceipts(ss)
  {
    ReceiptLeOrders();
    forall a, b | a in rs && b in rs && ReceiptLe(a, b) && ReceiptLe(b, a) ensures a == b {
      StrLeAntisymmetric(a.receiptId, b.receiptId);
    }
    SortIgnoresOrder(rs, ss, ReceiptLe);
  }

  lemma DistinctIdsPermute(rs: seq<ExecutionReceipt>, ss: seq<ExecutionReceipt>)
    requires DistinctIds(rs) && multiset(rs) == multiset(ss)
    ensures DistinctIds(ss)
  {
    SameElements(rs, ss);
    forall i, j | 0 <= i < j < |ss| ensures ss[i].receiptId != ss[j].receiptId {
      assert ss[i] in rs && ss[j] in rs;
      if ss[i] == ss[j] {
        TwiceIn(ss, i, j);
        DistinctOnce(rs, ss[i]);
      }
    }
  }

  lemma TwiceIn<T>(xs: seq<T>, i: nat, j: nat)
    requires i < j < |xs| && xs[i] == xs[j]
    ensures multiset(xs)[xs[i]] >= 2
  {
    assert xs == xs[..j] + xs[j..];
    assert xs[..j][i] == xs[i] && xs[j..][0] == xs[j];
    assert xs[i] in xs[..j] && xs[i] in xs[j..];
  }

  lemma DistinctOnce(rs: seq<ExecutionReceipt>, r: ExecutionReceipt)
    requires DistinctIds(rs)
    ensures multiset(rs)[r] <= 1
  {
    if rs != [] {
      assert rs == [rs[0]] + rs[1..];
      DistinctOnce(rs[1..], r);
    }
  }

  // ----- the dictionary, in insertion order -----

  function Get(rows: seq<ExecutionReceipt>, id: string): Option<ExecutionReceipt>
  {
    if rows == [] then None
    else if rows[0].receiptId == id then Some(rows[0])
    else Get(rows[1..], id)
  }

  lemma {:induction false} GetFinds(rows: seq<ExecutionReceipt>, id: string)
    ensures Get(rows, id).Some? ==> Get(rows, id).value in rows && Get(rows, id).value.receiptId == id
    ensures Get(rows, id).None? ==> forall r :: r in rows ==> r.receiptId != id
  {
    if rows != [] {
      assert rows == [rows[0]] + rows[1..];
      GetFinds(rows[1..], id);
    }
  }

  function ForTask(rows: seq<ExecutionReceipt>, taskId: string): seq<ExecutionReceipt>
  {
    if rows == [] then []
    else (if rows[0].taskId == taskId then [rows[0]] else []) + ForTask(rows[1..], taskId)
  }

  lemma {:induction false} ForTaskMembers(rows: seq<ExecutionReceipt>, taskId: string)
    ensures forall r :: r in ForTask(rows, taskId) <==> r in rows && r.taskId == taskId
    ensures DistinctIds(rows) ==> DistinctIds(ForTask(rows, taskId))
  {
    if rows != [] {
      assert rows == [rows[0]] + rows[1..];
      ForTaskMembers(rows[1..], taskId);
    }
  }

  lemma {:induction false} ForTaskCounts(rows: seq<ExecutionReceipt>, taskId: string, r: ExecutionReceipt)
    ensures multiset(ForTask(rows, taskId))[r] == if r.taskId == taskId then multiset(rows)[r] else 0
  {
    if rows != [] {
      assert rows == [rows[0]] + rows[1..];
      ForTaskCounts(rows[1..], taskId, r);
    }
  }

  lemma ForTaskPermutes(rows: seq<ExecutionReceipt>, other: seq<ExecutionReceipt>, taskId: string)
    requires multiset(rows) == multiset(other)
    ensures multiset(ForTask(rows, taskId)) == multiset(ForTask(other, taskId))
  {
    forall r ensures multiset(ForTask(rows, taskId))[r] == multiset(ForTask(other, taskId))[r] {
      ForTaskCounts(rows, taskId, r);
      ForTaskCounts(other, taskId, r);
    }
  }

  /** A task's receipts as verification orders them: by step, then id. */
  function SortedChain(rows: seq<ExecutionReceipt>, taskId: string): seq<ExecutionReceipt>
  {
    SortReceipts(SortBy(ForTask(rows, taskId), StepLe))
  }

  lemma SortedChainIs(rows: seq<ExecutionReceipt>, taskId: string)
    requires DistinctIds(rows)
    ensures SortedChain(rows, taskId) == SortReceipts(ForTask(rows, taskId))
    ensures multiset(SortedChain(rows, taskId)) == multiset(ForTask(rows, taskId))
    ensures forall r :: r in SortedChain(rows, taskId) <==> r in rows && r.taskId == taskId
    ensures DistinctIds(SortedChain(rows, taskId))
  {
    var task := ForTask(rows, taskId);
    ForTaskMembers(rows, taskId);
    SortPermutes(task, StepLe);
    SortReceiptsUnique(task, SortBy(task, StepLe));
    SameElements(SortReceipts(task), task);
    DistinctIdsPermute(task, SortReceipts(task));
  }

  /** The chain verification sees does not depend on the order in which the rows were inserted. */
  lemma SortedChainIgnoresOrder(rows: seq<ExecutionReceipt>, other: seq<ExecutionReceipt>, taskId: string)
    requires DistinctIds(rows) && multiset(rows) == multiset(other)
    ensures SortedChain(rows, taskId) == SortedChain(other, taskId)
  {
    DistinctIdsPermute(rows, other);
    SortedChainIs(rows, taskId);
    SortedChainIs(other, taskId);
    ForTaskPermutes(rows, other, taskId);
    ForTaskMembers(rows, taskId);
    SortReceiptsUnique(ForTask(rows, taskId), ForTask(other, taskId));
  }

  // ----- saving -----

  /** A save is refused when its id is taken by a receipt with another fingerprint. */
  predicate Refused(d: Digester, rows: seq<ExecutionReceipt>, r: ExecutionReceipt)
  {
    var existing := Get(rows, r.receiptId);
    existing.Some? && d.record(existing.value) != d.record(r)
  }

  function Saved(rows: seq<ExecutionReceipt>, r: ExecutionReceipt): seq<ExecutionReceipt>
  {
    if Get(rows, r.receiptId).Some? then rows else rows + [r]
  }

  function SavedAll(rows: seq<ExecutionReceipt>, rs: seq<ExecutionReceipt>): seq<ExecutionReceipt>
    decreases rs
  {
    if rs == [] then rows else SavedAll(Saved(rows, rs[0]), rs[1..])
  }

  class InMemoryReceiptStore {
    var rows: seq<ExecutionReceipt>  // `_by_id`, in insertion order

    ghost predicate Valid()
      reads this
    {
      DistinctIds(rows)
    }

    constructor ()
      ensures Valid() && rows == []
    {
      rows := [];
    }

    /** Write once: an accepted save leaves every stored receipt as it is and adds `r` if its id
        is new; `raised` is the `ValueError` for an id taken by a different payload. */
    method SaveReceipt(d: Digester, r: ExecutionReceipt) returns (raised: bool)
      requires Valid()
      modifies this
      ensures Valid()
      ensures raised <==> Refused(d, old(rows), r)
      ensures rows == if raised then old(rows) else Saved(old(rows), r)
      ensures !raised ==> r in rows || exists s :: s in rows && s != r && d.record(s) == d.record(r)
    {
      var existing := Get(rows, r.receiptId);
      GetFinds(rows, r.receiptId);
      if existing.Some? {
        return d.record(existing.value) != d.record(r);
      }
      rows := rows + [r];
      raised := false;
    }

    function GetReceipt(id: string): (r: Option<ExecutionReceipt>)
      requires Valid()
      reads this
      ensures r.Some? <==> exists s :: s in rows && s.receiptId == id
      ensures r.Some? ==> r.value in rows && r.value.receiptId == id
    {
      GetFinds(rows, id);
      Get(rows, id)
    }

    function GetReceiptChain(taskId: string): (chain: seq<ExecutionReceipt>)
      requires Valid()
      reads this
      ensures multiset(chain) == multiset(ForTask(rows, taskId))
      ensures Sorted(chain, StepLe)
    {
      StepLeOrders();
      SortSorts(ForTask(rows, taskId), StepLe);
      SortPermutes(ForTask(rows, taskId), StepLe);
      SortBy(ForTask(rows, taskId), StepLe)
    }
  }

  // ----- runs of saves -----

  /** Receipts that agree wherever they share an id. */
  ghost predicate Consistent(rs: seq<ExecutionReceipt>)
  {
    forall r, s :: r in rs && s in rs && r.receiptId == s.receiptId ==> r == s
  }

  /** What a run of saves leaves behind: the same receipts, each once. */
  lemma {:induction false} SavedAllKeeps(rows: seq<ExecutionReceipt>, rs: seq<ExecutionReceipt>)
    requires DistinctIds(rows) && Consistent(rows + rs)
    ensures DistinctIds(SavedAll(rows, rs))
    ensures forall r :: r in SavedAll(rows, rs) <==> r in rows || r in rs
    decreases rs
  {
    if rs != [] {
      var next := Saved(rows, rs[0]);
      GetFinds(rows, rs[0].receiptId);
      assert rs == [rs[0]] + rs[1..];
      assert forall r :: r in next + rs[1..] ==> r in rows + rs;
      assert forall r :: r in next ==> r in rows || r == rs[0];
      assert rs[0] in rows + rs;
      SavedAllKeeps(next, rs[1..]);
    }
  }

  lemma SameIdsPermute(rows: seq<ExecutionReceipt>, other: seq<ExecutionReceipt>)
    requires DistinctIds(rows) && DistinctIds(other)
    requires forall r :: r in rows <==> r in other
    ensures multiset(rows) == multiset(other)
  {
    forall r ensures multiset(rows)[r] == multiset(other)[r] {
      DistinctOnce(rows, r);
      DistinctOnce(other, r);
      assert r in multiset(rows) <==> r in rows;
      assert r in multiset(other) <==> r in other;
    }
  }

  /** Saving the same receipts in another order, or some of them twice, leaves stores that
      verification cannot tell apart. */
  lemma SaveOrderIsInvisible(rs: seq<ExecutionReceipt>, ss: seq<ExecutionReceipt>, taskId: string)
    requires Consistent(rs) && forall r :: r in rs <==> r in ss
    ensures SortedChain(SavedAll([], rs), taskId) == SortedChain(SavedAll([], ss), taskId)
    ensures forall r :: r in SortedChain(SavedAll([], rs), taskId) <==> r in rs && r.taskId == taskId
  {
    assert [] + rs == rs && [] + ss == ss;
    SavedAllKeeps([], rs);
    SavedAllKeeps([], ss);
    SameIdsPermute(SavedAll([], rs), SavedAll([], ss));
    SortedChainIgnoresOrder(SavedAll([], rs), SavedAll([], ss), taskId);
    SortedChainIs(SavedAll([], rs), taskId);
  }
}
