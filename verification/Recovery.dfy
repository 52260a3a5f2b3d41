/** Diagnostics for interrupted receipt chains, and what a chain without gaps guarantees. */
module Recovery {
  import opened Text
  import opened Sorting
  import opened Schemas
  import opened ReceiptStore

  datatype Gap =
    | EmptyChain
    | NonContiguousStep(expected: int, got: int)
    | UnexpectedPrevOnFirstStep
    | PrevHashMismatch(step: int)

  /** Receipt `i` of a sorted chain has a wrong `prev_receipt_hash`. */
  predicate BadLink(d: Digester, rs: seq<ExecutionReceipt>, i: nat)
    requires i < |rs|
  {
    if i == 0 then rs[0].stepIndex == 0 && rs[0].prevReceiptHash != ""
    else rs[i].prevReceiptHash != d.record(rs[i - 1])
  }

  function StepGaps(rs: seq<ExecutionReceipt>, n: nat): seq<Gap>
    requires n <= |rs|
  {
    if n == 0 then []
    else if rs[n - 1].stepIndex == n - 1 then StepGaps(rs, n - 1)
    else StepGaps(rs, n - 1) + [NonContiguousStep(n - 1, rs[n - 1].stepIndex)]
  }

  function LinkGap(rs: seq<ExecutionReceipt>, i: nat): Gap
    requires i < |rs|
  {
    if i == 0 then UnexpectedPrevOnFirstStep else PrevHashMismatch(rs[i].stepIndex)
  }

  function LinkGaps(d: Digester, rs: seq<ExecutionReceipt>, n: nat): seq<Gap>
    requires n <= |rs|
  {
    if n == 0 then []
    else if !BadLink(d, rs, n - 1) then LinkGaps(d, rs, n - 1)
    else LinkGaps(d, rs, n - 1) + [LinkGap(rs, n - 1)]
  }

  method CheckSteps(rs: seq<ExecutionReceipt>) returns (msgs: seq<Gap>)
    ensures msgs == StepGaps(rs, |rs|)
  {
    msgs := [];
    for i := 0 to |rs|
      invariant msgs == StepGaps(rs, i)
    {
      if rs[i].stepIndex != i {
        msgs := msgs + [NonContiguousStep(i, rs[i].stepIndex)];
      }
    }
  }

  method CheckLinks(d: Digester, rs: seq<ExecutionReceipt>) returns (msgs: seq<Gap>)
    ensures msgs == LinkGaps(d, rs, |rs|)
  {
    msgs := [];
    for i := 0 to |rs|
      invariant msgs == LinkGaps(d, rs, i)
    {
      if i == 0 {
        if rs[i].stepIndex == 0 && rs[i].prevReceiptHash != "" {
          msgs := msgs + [UnexpectedPrevOnFirstStep];
        }
        continue;
      }
      var prev := rs[i - 1];
      if rs[i].prevReceiptHash != d.record(prev) {
        msgs := msgs + [PrevHashMismatch(rs[i].stepIndex)];
      }
    }
  }

  method DescribeReceiptChainGaps(d: Digester, chain: seq<ExecutionReceipt>) returns (msgs: seq<Gap>)
    ensures chain == [] ==> msgs == [EmptyChain]
    ensures chain != [] ==>
      msgs == StepGaps(SortReceipts(chain), |chain|) + LinkGaps(d, SortReceipts(chain), |chain|)
    ensures msgs == [] <==> NoGaps(d, chain)
  {
    if chain == [] {
      return [EmptyChain];
    }
    var rs := SortReceipts(chain);
    var steps := CheckSteps(rs);
    var links := CheckLinks(d, rs);
    NoStepGaps(rs, |rs|);
    NoLinkGaps(d, rs, |rs|);
    msgs := steps + links;
  }

  // ----- chains without gaps -----

  ghost predicate Contiguous(rs: seq<ExecutionReceipt>)
  {
    forall i :: 0 <= i < |rs| ==> rs[i].stepIndex == i
  }

  ghost predicate Linked(d: Digester, rs: seq<ExecutionReceipt>)
  {
    forall i :: 0 <= i < |rs| ==> !BadLink(d, rs, i)
  }

  /** Not empty, steps counted from zero, every receipt naming the digest of the one before. */
  ghost predicate NoGaps(d: Digester, chain: seq<ExecutionReceipt>)
  {
    chain != [] && Contiguous(SortReceipts(chain)) && Linked(d, SortReceipts(chain))
  }

  lemma {:induction false} NoStepGaps(rs: seq<ExecutionReceipt>, n: nat)
    requires n <= |rs|
    ensures StepGaps(rs, n) == [] <==> forall i :: 0 <= i < n ==> rs[i].stepIndex == i
  {
    if n > 0 {
      NoStepGaps(rs, n - 1);
    }
  }

  lemma {:induction false} NoLinkGaps(d: Digester, rs: seq<ExecutionReceipt>, n: nat)
    requires n <= |rs|
    ensures LinkGaps(d, rs, n) == [] <==> forall i :: 0 <= i < n ==> !BadLink(d, rs, i)
  {
    if n > 0 {
      NoLinkGaps(d, rs, n - 1);
    }
  }

  /** One digest fixes everything before it: if receipt `i` of one chain without gaps and receipt
      `j` of another have the same digest, the chains agree up to there, or two of their receipts
      collide. The proof walks back over `prev_receipt_hash`. */
  lemma {:induction false} DigestFixesHistory(d: Digester, rs: seq<ExecutionReceipt>, ss: seq<ExecutionReceipt>,
                                              i: nat, j: nat)
    requires Contiguous(rs) && Linked(d, rs) && Contiguous(ss) && Linked(d, ss)
    requires i < |rs| && j < |ss| && d.record(rs[i]) == d.record(ss[j])
    ensures (i == j && rs[..i + 1] == ss[..j + 1]) || ReceiptCollision(d, rs, ss)
  {
    if !ReceiptCollision(d, rs, ss) {
      assert rs[i] == ss[j];
      assert i == rs[i].stepIndex == ss[j].stepIndex == j;
      if i > 0 {
        assert !BadLink(d, rs, i) && !BadLink(d, ss, j);
        DigestFixesHistory(d, rs, ss, i - 1, j - 1);
        assert rs[..i + 1] == rs[..i] + [rs[i]] && ss[..j + 1] == ss[..j] + [ss[j]];
      }
    }
  }

  lemma PrefixFixed(d: Digester, rs: seq<ExecutionReceipt>, ss: seq<ExecutionReceipt>, j: nat)
    requires Contiguous(rs) && Linked(d, rs) && Contiguous(ss) && Linked(d, ss)
    requires rs != [] && j < |ss| && d.record(rs[|rs| - 1]) == d.record(ss[j])
    ensures rs == ss[..j + 1] || ReceiptCollision(d, rs, ss)
  {
    DigestFixesHistory(d, rs, ss, |rs| - 1, j);
    assert rs[..|rs|] == rs;
  }

  /** Two chains without gaps whose last receipts have equal record hashes are the same chain,
      length and all, or two of their receipts collide. */
  lemma HeadHashFixesHistory(d: Digester, a: seq<ExecutionReceipt>, b: seq<ExecutionReceipt>)
    requires NoGaps(d, a) && NoGaps(d, b)
    requires d.record(SortReceipts(a)[|a| - 1]) == d.record(SortReceipts(b)[|b| - 1])
    ensures (SortReceipts(a) == SortReceipts(b) && multiset(a) == multiset(b))
         || ReceiptCollision(d, SortReceipts(a), SortReceipts(b))
  {
    PrefixFixed(d, SortReceipts(a), SortReceipts(b), |b| - 1);
    assert SortReceipts(b)[..|b|] == SortReceipts(b);
  }

  /** In hashes alone: with SHA-256, or any hash function, over the canonical texts, two chains without
      gaps and with one head hash are one chain, or two different texts with one hash are at hand. */
  lemma HeadHashFixesHistoryOrCollides(h: Hasher, a: seq<ExecutionReceipt>, b: seq<ExecutionReceipt>)
    requires NoGaps(CanonicalDigests(h), a) && NoGaps(CanonicalDigests(h), b)
    requires h(ReceiptBytes(SortReceipts(a)[|a| - 1])) == h(ReceiptBytes(SortReceipts(b)[|b| - 1]))
    ensures (SortReceipts(a) == SortReceipts(b) && multiset(a) == multiset(b))
         || TextCollision(h, SortReceipts(a), SortReceipts(b))
  {
    hide ReceiptBytes, CanonicalDigests, NoGaps, TextCollision, SortReceipts;
    assert a != [] && b != [] by {
      NotEmpty(CanonicalDigests(h), a);
      NotEmpty(CanonicalDigests(h), b);
    }
    RecordDigestIs(h, SortReceipts(a)[|a| - 1]);
    RecordDigestIs(h, SortReceipts(b)[|b| - 1]);
    HeadHashFixesHistory(CanonicalDigests(h), a, b);
    ReceiptCollisionIsHashCollision(h, SortReceipts(a), SortReceipts(b));
  }

  lemma NotEmpty(d: Digester, chain: seq<ExecutionReceipt>)
    requires NoGaps(d, chain)
    ensures chain != []
  {}

  /** A head found inside a longer chain makes the shorter chain its beginning. */
  lemma HeadInsideIsPrefix(d: Digester, a: seq<ExecutionReceipt>, b: seq<ExecutionReceipt>, j: nat)
    requires NoGaps(d, a) && NoGaps(d, b) && j < |b|
    requires d.record(SortReceipts(a)[|a| - 1]) == d.record(SortReceipts(b)[j])
    ensures SortReceipts(a) <= SortReceipts(b) || ReceiptCollision(d, SortReceipts(a), SortReceipts(b))
  {
    PrefixFixed(d, SortReceipts(a), SortReceipts(b), j);
  }
}
