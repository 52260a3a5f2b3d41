/** Python's `sorted`: a stable sort by a total preorder, and what determines its result. */
module Sorting {

  ghost predicate TotalPreorder<T(!new)>(le: (T, T) -> bool)
  {
    && (forall a, b :: le(a, b) || le(b, a))
    && (forall a, b, c :: le(a, b) && le(b, c) ==> le(a, c))
  }

  ghost predicate Sorted<T>(xs: seq<T>, le: (T, T) -> bool)
  {
    forall i, j :: 0 <= i < j < |xs| ==> le(xs[i], xs[j])
  }

  function Insert<T>(x: T, xs: seq<T>, le: (T, T) -> bool): seq<T>
  {
    if xs == [] then [x]
    else if le(x, xs[0]) then [x] + xs
    else [xs[0]] + Insert(x, xs[1..], le)
  }

  function SortBy<T>(xs: seq<T>, le: (T, T) -> bool): seq<T>
  {
    if xs == [] then [] else Insert(xs[0], SortBy(xs[1..], le), le)
  }

  lemma {:induction false} InsertPermutes<T>(x: T, xs: seq<T>, le: (T, T) -> bool)
    ensures multiset(Insert(x, xs, le)) == multiset{x} + multiset(xs)
  {
    if xs != [] {
      assert xs == [xs[0]] + xs[1..];
      if !le(x, xs[0]) {
        InsertPermutes(x, xs[1..], le);
      }
    }
  }

  lemma {:induction false} SortPermutes<T>(xs: seq<T>, le: (T, T) -> bool)
    ensures multiset(SortBy(xs, le)) == multiset(xs)
    ensures |SortBy(xs, le)| == |xs|
  {
    if xs != [] {
      SortPermutes(xs[1..], le);
      InsertPermutes(xs[0], SortBy(xs[1..], le), le);
      assert xs == [xs[0]] + xs[1..];
    }
    assert |multiset(SortBy(xs, le))| == |multiset(xs)|;
  }

  lemma SameElements<T>(xs: seq<T>, ys: seq<T>)
    requires multiset(xs) == multiset(ys)
    ensures |xs| == |ys|
    ensures forall x :: x in xs <==> x in ys
  {
    assert |multiset(xs)| == |multiset(ys)|;
    forall x ensures x in xs <==> x in ys {
      assert x in xs <==> x in multiset(xs);
      assert x in ys <==> x in multiset(ys);
    }
  }

  lemma {:induction false} InsertSorts<T(!new)>(x: T, xs: seq<T>, le: (T, T) -> bool)
    requires TotalPreorder(le) && Sorted(xs, le)
    ensures Sorted(Insert(x, xs, le), le)
  {
    if xs != [] && !le(x, xs[0]) {
      InsertSorts(x, xs[1..], le);
      var rest := Insert(x, xs[1..], le);
      InsertPermutes(x, xs[1..], le);
      forall j | 0 <= j < |rest| ensures le(xs[0], rest[j]) {
        assert rest[j] in multiset(rest);
      }
    }
  }

  lemma {:induction false} SortSorts<T(!new)>(xs: seq<T>, le: (T, T) -> bool)
    requires TotalPreorder(le)
    ensures Sorted(SortBy(xs, le), le)
  {
    if xs != [] {
      SortSorts(xs[1..], le);
      InsertSorts(xs[0], SortBy(xs[1..], le), le);
    }
  }

  /** A sequence that is in order already is left alone. */
  lemma {:induction false} SortOfSorted<T>(xs: seq<T>, le: (T, T) -> bool)
    requires Sorted(xs, le)
    ensures SortBy(xs, le) == xs
  {
    if xs != [] {
      SortOfSorted(xs[1..], le);
      assert xs == [xs[0]] + xs[1..];
    }
  }

  /** Two arrangements of the same elements, both sorted, where no two elements tie. */
  ghost predicate SameSorted<T>(xs: seq<T>, ys: seq<T>, le: (T, T) -> bool)
  {
    && Sorted(xs, le) && Sorted(ys, le) && multiset(xs) == multiset(ys)
    && forall a, b :: a in xs && b in xs && le(a, b) && le(b, a) ==> a == b
  }

  lemma SortedHeads<T>(xs: seq<T>, ys: seq<T>, le: (T, T) -> bool)
    requires SameSorted(xs, ys, le) && xs != []
    ensures ys != [] && xs[0] == ys[0]
  {
    SameElements(xs, ys);
    assert ys[0] in xs && xs[0] in ys;
    var i :| 0 <= i < |xs| && xs[i] == ys[0];
    var j :| 0 <= j < |ys| && ys[j] == xs[0];
    if i > 0 && j > 0 {
      assert le(xs[0], xs[i]) && le(ys[0], ys[j]);
    }
  }

  lemma TailElements<T>(xs: seq<T>)
    requires xs != []
    ensures multiset(xs[1..]) == multiset(xs) - multiset{xs[0]}
  {
    assert xs == [xs[0]] + xs[1..];
  }

  function RemoveAt<T>(xs: seq<T>, j: nat): seq<T>
    requires j < |xs|
  {
    xs[..j] + xs[j + 1..]
  }

  lemma RemoveAtElements<T>(xs: seq<T>, j: nat)
    requires j < |xs|
    ensures multiset(xs) == multiset{xs[j]} + multiset(RemoveAt(xs, j))
    ensures multiset(RemoveAt(xs, j)) == multiset(xs) - multiset{xs[j]}
  {
    assert xs == xs[..j] + [xs[j]] + xs[j + 1..];
  }

  lemma MapRemoveAt<S, T>(f: S -> T, xs: seq<S>, ys: seq<T>, zs: seq<T>, j: nat)
    requires j < |xs| == |ys| && |zs| == |xs| - 1
    requires forall i :: 0 <= i < |xs| ==> ys[i] == f(xs[i])
    requires forall i :: 0 <= i < |zs| ==> zs[i] == f(RemoveAt(xs, j)[i])
    ensures zs == RemoveAt(ys, j)
  {
    forall i | 0 <= i < |zs| ensures zs[i] == RemoveAt(ys, j)[i] {
      assert RemoveAt(xs, j)[i] == xs[if i < j then i else i + 1];
    }
  }

  lemma {:induction false} SortedUnique<T>(xs: seq<T>, ys: seq<T>, le: (T, T) -> bool)
    requires SameSorted(xs, ys, le)
    ensures xs == ys
  {
    SameElements(xs, ys);
    if xs != [] {
      SortedHeads(xs, ys, le);
      TailElements(xs);
      TailElements(ys);
      SortedUnique(xs[1..], ys[1..], le);
      assert xs == [xs[0]] + xs[1..] && ys == [ys[0]] + ys[1..];
    }
  }

  /** The order in which elements arrive does not matter to `sorted` unless two of them tie. */
  lemma SortIgnoresOrder<T(!new)>(xs: seq<T>, ys: seq<T>, le: (T, T) -> bool)
    requires TotalPreorder(le) && multiset(xs) == multiset(ys)
    requires forall a, b :: a in xs && b in xs && le(a, b) && le(b, a) ==> a == b
    ensures SortBy(xs, le) == SortBy(ys, le)
  {
    SortPermutes(xs, le);
    SortPermutes(ys, le);
    SortSorts(xs, le);
    SortSorts(ys, le);
    SameElements(xs, SortBy(xs, le));
    SortedUnique(SortBy(xs, le), SortBy(ys, le), le);
  }
}
