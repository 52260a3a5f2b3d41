/** The automatic arbitration split: the flags read off the stored evidence, and the cascade of rules. */
module Arbitration {
  import opened Text
  import opened Sorting
  import opened Rounding

  // ----- the flags -----

  datatype ReceiptRow = ReceiptRow(receiptId: string, stepIndex: int, status: string, digest: string)

  /** A stored bundle; an entry of `receiptHashes` that is not a string is `None`. */
  datatype BundleRow = BundleRow(
    receiptIds: seq<string>,
    totalSteps: int,
    successfulSteps: int,
    failedSteps: int,
    receiptHashes: seq<Option<string>>)

  datatype Note = LateDelivery | NoSuccessReceipt | IdsMismatch | StepCountsWrong | HashesMalformed | HashesMismatch | NoReceipts

  datatype Context = Context(
    deliveryOverdue: bool,
    hasSuccessReceipt: bool,
    receiptIdsOk: Option<bool>,
    stepCountsOk: Option<bool>,
    hashesMatch: Option<bool>,
    notes: seq<Note>)

  predicate RowLe(a: ReceiptRow, b: ReceiptRow)
  {
    a.stepIndex <= b.stepIndex
  }

  predicate WellFormedHash(h: Option<string>)
  {
    h.Some? && IsHex64(Lower(Strip(h.value)))
  }

  method HashesWellFormed(hashes: seq<Option<string>>) returns (ok: bool)
    ensures ok <==> hashes != [] && forall i :: 0 <= i < |hashes| ==> WellFormedHash(hashes[i])
  {
    if hashes == [] {
      return false;
    }
    for i := 0 to |hashes|
      invariant forall k :: 0 <= k < i ==> WellFormedHash(hashes[k])
    {
      if !WellFormedHash(hashes[i]) {
        return false;
      }
    }
    ok := true;
  }

  function RowIds(rows: seq<ReceiptRow>): (ids: seq<string>)
    ensures |ids| == |rows| && forall i :: 0 <= i < |rows| ==> ids[i] == rows[i].receiptId
  {
    if rows == [] then [] else [rows[0].receiptId] + RowIds(rows[1..])
  }

  /** Each declared hash, stripped and lower-cased, is the digest of the receipt at its place. */
  ghost predicate HashesMatch(hashes: seq<Option<string>>, rows: seq<ReceiptRow>)
  {
    |hashes| == |rows| && forall i :: 0 <= i < |rows| ==> hashes[i].Some? && Lower(Strip(hashes[i].value)) == rows[i].digest
  }

  method CompareHashes(hashes: seq<Option<string>>, rows: seq<ReceiptRow>) returns (ok: bool)
    requires forall i :: 0 <= i < |hashes| ==> WellFormedHash(hashes[i])
    ensures ok <==> HashesMatch(hashes, rows)
  {
    var computed: seq<string> := [];
    for i := 0 to |rows|
      invariant |computed| == i && forall k :: 0 <= k < i ==> computed[k] == rows[k].digest
    {
      computed := computed + [rows[i].digest];
    }
    var declared: seq<string> := [];
    for i := 0 to |hashes|
      invariant |declared| == i && forall k :: 0 <= k < i ==> declared[k] == Lower(Strip(hashes[k].value))
    {
      declared := declared + [Lower(Strip(hashes[i].value))];
    }
    ok := declared == computed;
    if HashesMatch(hashes, rows) {
      assert declared == computed;
    }
  }

  ghost predicate StepCountsOk(b: BundleRow, n: nat)
  {
    b.totalSteps == n && b.successfulSteps + b.failedSteps <= n && b.successfulSteps >= 0 && b.failedSteps >= 0
  }

  /** A bundle that states what is stored: ids and digests in step order, and consistent counts. */
  ghost predicate Accurate(b: BundleRow, rows: seq<ReceiptRow>)
  {
    && b.receiptIds == RowIds(SortBy(rows, RowLe))
    && StepCountsOk(b, |rows|)
    && HashesMatch(b.receiptHashes, SortBy(rows, RowLe))
  }

  method AnySuccess(rows: seq<ReceiptRow>) returns (any: bool)
    ensures any <==> exists r :: r in rows && r.status == "success"
  {
    for i := 0 to |rows|
      invariant forall k :: 0 <= k < i ==> rows[k].status != "success"
    {
      if rows[i].status == "success" {
        assert rows[i] in rows;
        return true;
      }
    }
    any := false;
  }

  /** Compares a stored bundle with the stored receipts, noting each mismatch. */
  method CompareBundle(b: BundleRow, rows: seq<ReceiptRow>)
    returns (idsOk: bool, countsOk: bool, matching: bool, notes: seq<Note>)
    requires rows != [] && forall i :: 0 <= i < |rows| ==> IsHex64(rows[i].digest)
    ensures idsOk <==> b.receiptIds == RowIds(SortBy(rows, RowLe))
    ensures countsOk <==> StepCountsOk(b, |rows|)
    ensures matching <==> HashesMatch(b.receiptHashes, SortBy(rows, RowLe))
    ensures notes == [] <==> Accurate(b, rows)
  {
    hide HashesMatch, WellFormedHash, IsHex64;
    notes := [];
    var ordered := SortBy(rows, RowLe);
    SortPermutes(rows, RowLe);
    SameElements(rows, ordered);
    var n := |ordered|;
    idsOk := b.receiptIds == RowIds(ordered);
    if !idsOk {
      notes := notes + [IdsMismatch];
    }
    countsOk := b.totalSteps == n && b.successfulSteps + b.failedSteps <= n && b.successfulSteps >= 0 && b.failedSteps >= 0;
    if !countsOk {
      notes := notes + [StepCountsWrong];
    }
    var formed := HashesWellFormed(b.receiptHashes);
    matching := false;
    if !formed {
      notes := notes + [HashesMalformed];
      MatchIsWellFormed(b.receiptHashes, ordered);
    } else {
      matching := CompareHashes(b.receiptHashes, ordered);
      if !matching {
        notes := notes + [HashesMismatch];
      }
    }
  }

  function NoteIf(c: bool, n: Note): seq<Note>
  {
    if c then [n] else []
  }

  /** Reads the flags; `deadline` is the delivery deadline, `delivered` whether the task is delivered. */
  method BuildContext(rows: seq<ReceiptRow>, bundle: Option<BundleRow>, now: int, deadline: Option<int>, delivered: bool)
    returns (ctx: Context)
    requires forall i :: 0 <= i < |rows| ==> IsHex64(rows[i].digest)
    ensures ctx.deliveryOverdue <==> deadline.Some? && now > deadline.value && !delivered
    ensures ctx.hasSuccessReceipt <==> exists r :: r in rows && r.status == "success"
    ensures bundle.None? ==> ctx.receiptIdsOk.None? && ctx.stepCountsOk.None? && ctx.hashesMatch.None?
    ensures bundle.Some? ==> ctx.receiptIdsOk == Some(rows != [] && bundle.value.receiptIds == RowIds(SortBy(rows, RowLe)))
    ensures bundle.Some? ==> ctx.stepCountsOk == Some(rows != [] && StepCountsOk(bundle.value, |rows|))
    ensures bundle.Some? ==>
      ctx.hashesMatch == Some(rows != [] && HashesMatch(bundle.value.receiptHashes, SortBy(rows, RowLe)))
    ensures ctx.notes == [] <==>
      && !ctx.deliveryOverdue && ctx.hasSuccessReceipt
      && (bundle.Some? ==> rows != [] && Accurate(bundle.value, rows))
  {
    hide HashesMatch, StepCountsOk, IsHex64;
    var overdue := deadline.Some? && now > deadline.value && !delivered;
    var success := AnySuccess(rows);
    var notes := NoteIf(overdue, LateDelivery) + NoteIf(!success, NoSuccessReceipt);
    if bundle.None? {
      return Context(overdue, success, None, None, None, notes);
    }
    if rows == [] {
      return Context(overdue, success, Some(false), Some(false), Some(false), notes + [NoReceipts]);
    }
    var idsOk, countsOk, matching, more := CompareBundle(bundle.value, rows);
    ctx := Context(overdue, success, Some(idsOk), Some(countsOk), Some(matching), notes + more);
  }

  lemma MatchIsWellFormed(hashes: seq<Option<string>>, rows: seq<ReceiptRow>)
    requires rows != [] && forall r :: r in rows ==> IsHex64(r.digest)
    ensures HashesMatch(hashes, rows) ==> hashes != [] && forall i :: 0 <= i < |hashes| ==> WellFormedHash(hashes[i])
  {
    if HashesMatch(hashes, rows) {
      forall i | 0 <= i < |hashes| ensures WellFormedHash(hashes[i]) {
        assert rows[i] in rows;
      }
    }
  }

  // ----- the split -----

  function Round2(x: real): real
  {
    RoundHalfEven(100.0 * x) as real / 100.0
  }

  datatype Rule =
    | FormatError
    | IntegrityNoProgress
    | OverdueNoProgress
    | NoSuccessNoProgress
    | IntegrityPartial
    | BuyerWins
    | SellerWins
    | PartialByProgress

  datatype Split = Split(settled: real, refunded: real)

  predicate IntegrityBad(ctx: Context)
  {
    ctx.receiptIdsOk == Some(false) || ctx.hashesMatch == Some(false)
  }

  function ByPercent(percent: real, escrow: real): Split
  {
    var settled := Round2(escrow * percent / 100.0);
    Split(settled, Round2(escrow - settled))
  }

  /** The eight rules, first match first. */
  function AdjustAutoSplitForRules(ctx: Context, percent: real, escrow: real): (Split, Rule)
  {
    var toBuyer := Split(0.0, Round2(escrow));
    if ctx.stepCountsOk == Some(false) then (toBuyer, FormatError)
    else if IntegrityBad(ctx) && percent <= 0.0 then (toBuyer, IntegrityNoProgress)
    else if ctx.deliveryOverdue && percent <= 0.0 then (toBuyer, OverdueNoProgress)
    else if !ctx.hasSuccessReceipt && percent <= 0.0 then (toBuyer, NoSuccessNoProgress)
    else if IntegrityBad(ctx) && percent < 50.0 then (ByPercent(Max(percent, 0.0), escrow), IntegrityPartial)
    else if percent <= 0.0 then (toBuyer, BuyerWins)
    else if percent >= 90.0 then (Split(Round2(escrow), 0.0), SellerWins)
    else (ByPercent(percent, escrow), PartialByProgress)
  }

  /** The split without the rules: a format error, and three ranges of confirmed progress. */
  function SimpleSplit(formatError: bool, percent: real, escrow: real): Split
  {
    if formatError || percent <= 0.0 then Split(0.0, Round2(escrow))
    else if percent >= 90.0 then Split(Round2(escrow), 0.0)
    else ByPercent(percent, escrow)
  }

  /** The cascade pays what the simple split pays: overdue delivery, missing success receipts and
      failed integrity change only which rule is named. */
  lemma CascadeIsSimple(ctx: Context, percent: real, escrow: real)
    ensures AdjustAutoSplitForRules(ctx, percent, escrow).0 == SimpleSplit(ctx.stepCountsOk == Some(false), percent, escrow)
  {}

  /** Two contexts that agree on the step-count flag split alike. */
  lemma OnlyStepCountsMatter(a: Context, b: Context, percent: real, escrow: real)
    requires (a.stepCountsOk == Some(false)) == (b.stepCountsOk == Some(false))
    ensures AdjustAutoSplitForRules(a, percent, escrow).0 == AdjustAutoSplitForRules(b, percent, escrow).0
  {
    CascadeIsSimple(a, percent, escrow);
    CascadeIsSimple(b, percent, escrow);
  }

  lemma RoundShift(x: real, k: int)
    ensures -0.5 <= RoundHalfEven(x - k as real) as real + k as real - x <= 0.5
  {
    RoundNearest(x - k as real);
  }

  /** The seller's whole cents in a partial split. */
  function SettledCents(percent: real, cents: nat): (k: int)
    requires 0.0 <= percent <= 100.0
    ensures 0 <= k <= cents
  {
    var escrow := cents as real / 100.0;
    TimesMonotone(escrow, 0.0, percent);
    TimesMonotone(escrow, percent, 100.0);
    assert Times(escrow, 100.0) == cents as real && Times(escrow, 0.0) == 0.0;
    RoundBetween(0, Times(escrow, percent), cents);
    RoundHalfEven(Times(escrow, percent))
  }

  lemma Percentage(escrow: real, percent: real)
    ensures 100.0 * (escrow * percent / 100.0) == Times(escrow, percent)
  {}

  lemma PartialSplit(percent: real, cents: nat)
    requires 0.0 <= percent <= 100.0
    ensures var k := SettledCents(percent, cents);
      ByPercent(percent, cents as real / 100.0) == Split(k as real / 100.0, (cents - k) as real / 100.0)
  {
    hide RoundHalfEven, Times;
    var escrow, k := cents as real / 100.0, SettledCents(percent, cents);
    Percentage(escrow, percent);
    RoundOfInteger(cents - k);
    var share, settled := escrow * percent / 100.0, k as real / 100.0;
    assert 100.0 * share == Times(escrow, percent);
    assert Round2(share) == settled;
    var left := escrow - settled;
    assert 100.0 * left == (cents - k) as real;
    assert Round2(left) == (cents - k) as real / 100.0;
  }

  lemma WholeEscrow(cents: nat)
    ensures Round2(cents as real / 100.0) == cents as real / 100.0
  {
    RoundOfInteger(cents);
    assert 100.0 * (cents as real / 100.0) == cents as real;
  }

  /** For an escrow of whole cents nothing is created or lost, and neither side gets less than nothing. */
  lemma SplitConserves(formatError: bool, percent: real, cents: nat)
    ensures var escrow := cents as real / 100.0;
      var s := SimpleSplit(formatError, percent, escrow);
      s.settled + s.refunded == escrow && 0.0 <= s.settled <= escrow && 0.0 <= s.refunded <= escrow
  {
    hide Round2, ByPercent, SettledCents;
    WholeEscrow(cents);
    if 0.0 < percent < 90.0 {
      PartialSplit(percent, cents);
    }
  }

  lemma SettledCentsGrow(p: real, q: real, cents: nat)
    requires 0.0 <= p <= q <= 100.0
    ensures SettledCents(p, cents) <= SettledCents(q, cents)
  {
    hide RoundHalfEven, Times;
    TimesMonotone(cents as real / 100.0, p, q);
    RoundMonotone(Times(cents as real / 100.0, p), Times(cents as real / 100.0, q));
  }

  /** More confirmed progress never pays the seller less. */
  lemma SettledGrows(formatError: bool, p: real, q: real, cents: nat)
    requires p <= q
    ensures var escrow := cents as real / 100.0;
      SimpleSplit(formatError, p, escrow).settled <= SimpleSplit(formatError, q, escrow).settled
  {
    hide Round2, ByPercent, SettledCents;
    WholeEscrow(cents);
    SplitConserves(formatError, p, cents);
    SplitConserves(formatError, q, cents);
    if 0.0 < p && q < 90.0 {
      PartialSplit(p, cents);
      PartialSplit(q, cents);
      SettledCentsGrow(p, q, cents);
    }
  }

  /** For any escrow the two parts add up to within half a cent. */
  lemma SplitNearlyConserves(formatError: bool, percent: real, escrow: real)
    ensures var s := SimpleSplit(formatError, percent, escrow);
      -0.005 <= s.settled + s.refunded - escrow <= 0.005
  {
    RoundNearest(100.0 * escrow);
    if !formatError && 0.0 < percent < 90.0 {
      var k := RoundHalfEven(100.0 * (escrow * percent / 100.0));
      RoundShift(100.0 * escrow, k);
      assert 100.0 * (escrow - k as real / 100.0) == 100.0 * escrow - k as real;
    }
  }

  predicate Whole(x: real)
  {
    x == x.Floor as real
  }

  predicate Tie(x: real)
  {
    x - x.Floor as real == 0.5
  }

  /** The seller's part in cents, before the rest is rounded. */
  function ShareCents(percent: real, escrow: real): int
  {
    RoundHalfEven(100.0 * (escrow * percent / 100.0))
  }

  lemma WholeParts(formatError: bool, percent: real, escrow: real) returns (k: int, m: int)
    ensures var s := SimpleSplit(formatError, percent, escrow);
      s.settled == k as real / 100.0 && s.refunded == m as real / 100.0
    ensures !formatError && 0.0 < percent < 90.0 ==>
      k == ShareCents(percent, escrow) && m == RoundHalfEven(100.0 * escrow - k as real)
    ensures formatError || percent <= 0.0 || percent >= 90.0 ==> k + m == RoundHalfEven(100.0 * escrow)
  {
    hide RoundHalfEven;
    if formatError || percent <= 0.0 {
      k, m := 0, RoundHalfEven(100.0 * escrow);
    } else if percent >= 90.0 {
      k, m := RoundHalfEven(100.0 * escrow), 0;
    } else {
      k := ShareCents(percent, escrow);
      var left := escrow - k as real / 100.0;
      assert 100.0 * left == 100.0 * escrow - k as real;
      m := RoundHalfEven(100.0 * left);
    }
  }

  /** The two parts add up to the escrow exactly when it is a whole number of cents. */
  lemma SplitConservesIff(formatError: bool, percent: real, escrow: real)
    ensures var s := SimpleSplit(formatError, percent, escrow);
      s.settled + s.refunded == escrow <==> Whole(100.0 * escrow)
  {
    hide RoundHalfEven, ByPercent, SimpleSplit;
    var k, m := WholeParts(formatError, percent, escrow);
    var x := 100.0 * escrow;
    if Whole(x) {
      RoundOfInteger(x.Floor);
      RoundOfInteger(x.Floor - k);
      assert x - k as real == (x.Floor - k) as real;
    }
    if k as real / 100.0 + m as real / 100.0 == escrow {
      assert x == (k + m) as real;
    }
  }

  lemma RoundShiftExact(x: real, k: int)
    ensures RoundHalfEven(x - k as real) + k == RoundHalfEven(x)
      + if !Tie(x) || k % 2 == 0 then 0 else if x.Floor % 2 == 0 then 1 else -1
  {
    assert (x - k as real).Floor == x.Floor - k;
  }

  /** Against the escrow rounded to cents, the parts are a cent off exactly in a partial split of an
      escrow that ends in half a cent, when the seller's part is an odd number of cents: a cent more
      if the escrow's whole cents are even, a cent less if they are odd. */
  lemma HalfCentDrifts(formatError: bool, percent: real, escrow: real)
    ensures var s := SimpleSplit(formatError, percent, escrow);
      var drifts := !formatError && 0.0 < percent < 90.0 && Tie(100.0 * escrow) && ShareCents(percent, escrow) % 2 != 0;
      s.settled + s.refunded == Round2(escrow)
        + if !drifts then 0.0 else if (100.0 * escrow).Floor % 2 == 0 then 0.01 else -0.01
  {
    hide RoundHalfEven, ByPercent, SimpleSplit, Tie;
    var k, m := WholeParts(formatError, percent, escrow);
    RoundShiftExact(100.0 * escrow, k);
    assert k as real / 100.0 + m as real / 100.0 == (k + m) as real / 100.0;
  }

  /** The case arises: 12.5 cents at 8 percent split into 1 and 12, while 12.5 rounds to 12. */
  lemma HalfCentGained()
    ensures SimpleSplit(false, 8.0, 0.125) == Split(0.01, 0.12) && Round2(0.125) == 0.12
  {
    assert RoundHalfEven(1.0) == 1 && RoundHalfEven(11.5) == 12 && RoundHalfEven(12.5) == 12;
  }
}
