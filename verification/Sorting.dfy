/** Sorting with a comparator, as the built-in sort of the source's language: only its result matters. */
module Sorting {

  ghost predicate TotalPreorder<T(!new)>(le: (T, T) -> bool) {
    && (forall a, b :: le(a, b) || le(b, a))
    && (forall a, b, c :: le(a, b) && le(b, c) ==> le(a, c))
  }

  ghost predicate SortedBy<T>(xs: seq<T>, le: (T, T) -> bool) {
    forall i, j :: 0 <= i < j < |xs| ==> le(xs[i], xs[j])
  }

  /** Distinct elements are never tied. */
  ghost predicate Antisymmetric<T>(xs: multiset<T>, le: (T, T) -> bool) {
    forall a, b :: a in xs && b in xs && le(a, b) && le(b, a) ==> a == b
  }

  function Insert<T>(x: T, xs: seq<T>, le: (T, T) -> bool): seq<T> {
    if xs == [] then [x]
    else if le(x, xs[0]) then [x] + xs
    else [xs[0]] + Insert(x, xs[1..], le)
  }

  function Sort<T>(xs: seq<T>, le: (T, T) -> bool): seq<T> {
    if xs == [] then [] else Insert(xs[0], Sort(xs[1..], le), le)
  }

  lemma {:induction false} InsertPermutes<T>(x: T, xs: seq<T>, le: (T, T) -> bool)
    ensures multiset(Insert(x, xs, le)) == multiset(xs) + multiset{x}
  {
    if xs != [] {
      assert xs == [xs[0]] + xs[1..];
      if !le(x, xs[0]) {
        InsertPermutes(x, xs[1..], le);
      }
    }
  }

  lemma {:induction false} SortPermutes<T>(xs: seq<T>, le: (T, T) -> bool)
    ensures multiset(Sort(xs, le)) == multiset(xs)
    ensures |Sort(xs, le)| == |xs|
  {
    if xs != [] {
      assert xs == [xs[0]] + xs[1..];
      SortPermutes(xs[1..], le);
      InsertPermutes(xs[0], Sort(xs[1..], le), le);
      assert |multiset(Sort(xs, le))| == |multiset(xs)|;
    }
  }

  lemma {:induction false} InsertSorts<T(!new)>(x: T, xs: seq<T>, le: (T, T) -> bool)
    requires TotalPreorder(le) && SortedBy(xs, le)
    ensures SortedBy(Insert(x, xs, le), le)
  {
    if xs != [] && !le(x, xs[0]) {
      InsertSorts(x, xs[1..], le);
      InsertPermutes(x, xs[1..], le);
      var r := Insert(x, xs[1..], le);
      forall k | 0 <= k < |r| ensures le(xs[0], r[k]) {
        assert r[k] in multiset(r);
        assert r[k] == x || r[k] in xs[1..];
      }
    }
  }

  lemma {:induction false} SortSorts<T(!new)>(xs: seq<T>, le: (T, T) -> bool)
    requires TotalPreorder(le)
    ensures SortedBy(Sort(xs, le), le)
  {
    if xs != [] {
      SortSorts(xs[1..], le);
      InsertSorts(xs[0], Sort(xs[1..], le), le);
    }
  }

  lemma Members<T>(xs: seq<T>, ys: seq<T>)
    requires multiset(xs) == multiset(ys)
    ensures forall x :: x in xs <==> x in ys
  {
    forall x ensures x in xs <==> x in ys {
      assert x in multiset(xs) <==> x in multiset(ys);
    }
  }

  lemma HeadsAgree<T(!new)>(xs: seq<T>, ys: seq<T>, le: (T, T) -> bool)
    requires multiset(xs) == multiset(ys) && |xs| > 0 && |ys| > 0
    requires SortedBy(xs, le) && SortedBy(ys, le)
    requires TotalPreorder(le) && Antisymmetric(multiset(xs), le)
    ensures xs[0] == ys[0]
  {
    assert xs[0] in multiset(ys) && ys[0] in multiset(xs) && xs[0] in multiset(xs);
    assert le(xs[0], ys[0]) && le(ys[0], xs[0]) by {
      assert le(xs[0], xs[0]) && le(ys[0], ys[0]);
      var i :| 0 <= i < |ys| && ys[i] == xs[0];
      var j :| 0 <= j < |xs| && xs[j] == ys[0];
    }
  }

  lemma TailMultiset<T>(xs: seq<T>)
    requires |xs| > 0
    ensures multiset(xs[1..]) == multiset(xs) - multiset{xs[0]}
  {
    assert xs == [xs[0]] + xs[1..];
  }

  lemma TailSorted<T>(xs: seq<T>, le: (T, T) -> bool)
    requires |xs| > 0 && SortedBy(xs, le)
    ensures SortedBy(xs[1..], le)
  {
  }

  /** With no ties, the sorted arrangement of a multiset is unique. */
  lemma {:induction false} SortedUnique<T(!new)>(xs: seq<T>, ys: seq<T>, le: (T, T) -> bool)
    requires multiset(xs) == multiset(ys)
    requires SortedBy(xs, le) && SortedBy(ys, le)
    requires TotalPreorder(le) && Antisymmetric(multiset(xs), le)
    ensures xs == ys
  {
    hide SortedBy, TotalPreorder;
    assert |multiset(xs)| == |multiset(ys)|;
    if xs != [] {
      HeadsAgree(xs, ys, le);
      TailMultiset(xs);
      TailMultiset(ys);
      TailSorted(xs, le);
      TailSorted(ys, le);
      SortedUnique(xs[1..], ys[1..], le);
      assert xs == [xs[0]] + xs[1..] && ys == [ys[0]] + ys[1..];
    }
  }

  lemma SortCanonical<T(!new)>(xs: seq<T>, ys: seq<T>, le: (T, T) -> bool)
    requires multiset(xs) == multiset(ys)
    requires TotalPreorder(le) && Antisymmetric(multiset(xs), le)
    ensures Sort(xs, le) == Sort(ys, le)
  {
    SortPermutes(xs, le);
    SortPermutes(ys, le);
    SortSorts(xs, le);
    SortSorts(ys, le);
    SortedUnique(Sort(xs, le), Sort(ys, le), le);
  }
}
