/** Python's `sorted` and `list.sort`: a stable sort under a total preorder, and unordered listings of a set. */
module Sorting {
  ghost predicate TotalPreorder<T(!new)>(leq: (T, T) -> bool) {
    && (forall a, b :: leq(a, b) || leq(b, a))
    && (forall a, b, c :: leq(a, b) && leq(b, c) ==> leq(a, c))
  }

  ghost predicate SortedBy<T>(s: seq<T>, leq: (T, T) -> bool) {
    forall i, j :: 0 <= i < j < |s| ==> leq(s[i], s[j])
  }

  function Insert<T>(x: T, s: seq<T>, leq: (T, T) -> bool): seq<T> {
    if s == [] || leq(x, s[0]) then [x] + s else [s[0]] + Insert(x, s[1..], leq)
  }

  function StableSort<T>(s: seq<T>, leq: (T, T) -> bool): seq<T> {
    if s == [] then [] else Insert(s[0], StableSort(s[1..], leq), leq)
  }

  /** The elements that tie with `x`, in their order. */
  function Ties<T>(s: seq<T>, x: T, leq: (T, T) -> bool): seq<T> {
    if s == [] then []
    else (if leq(x, s[0]) && leq(s[0], x) then [s[0]] else []) + Ties(s[1..], x, leq)
  }

  lemma {:induction false} InsertKeepsElements<T>(x: T, s: seq<T>, leq: (T, T) -> bool)
    ensures multiset(Insert(x, s, leq)) == multiset{x} + multiset(s)
  {
    if s == [] || leq(x, s[0]) {
    } else {
      InsertKeepsElements(x, s[1..], leq);
      assert s == [s[0]] + s[1..];
    }
  }

  lemma {:induction false} SortKeepsElements<T>(s: seq<T>, leq: (T, T) -> bool)
    ensures multiset(StableSort(s, leq)) == multiset(s)
    ensures |StableSort(s, leq)| == |s|
    ensures forall x :: x in StableSort(s, leq) <==> x in s
  {
    if s == [] {
    } else {
      SortKeepsElements(s[1..], leq);
      InsertKeepsElements(s[0], StableSort(s[1..], leq), leq);
      assert s == [s[0]] + s[1..];
      assert |StableSort(s, leq)| == |multiset(StableSort(s, leq))| == |multiset(s)|;
    }
    forall x ensures x in StableSort(s, leq) <==> x in s {
      assert x in multiset(StableSort(s, leq)) <==> x in multiset(s);
    }
  }

  lemma {:induction false} InsertSorts<T(!new)>(x: T, s: seq<T>, leq: (T, T) -> bool)
    requires TotalPreorder(leq) && SortedBy(s, leq)
    ensures SortedBy(Insert(x, s, leq), leq)
  {
    if s == [] || leq(x, s[0]) {
    } else {
      InsertSorts(x, s[1..], leq);
      InsertKeepsElements(x, s[1..], leq);
      var rest := Insert(x, s[1..], leq);
      forall i | 0 <= i < |rest| ensures leq(s[0], rest[i]) {
        assert rest[i] in multiset(rest);
        assert rest[i] == x || rest[i] in s[1..];
      }
    }
  }

  /** The result is in order. */
  lemma {:induction false} SortSorts<T(!new)>(s: seq<T>, leq: (T, T) -> bool)
    requires TotalPreorder(leq)
    ensures SortedBy(StableSort(s, leq), leq)
  {
    if s == [] {
    } else {
      SortSorts(s[1..], leq);
      InsertSorts(s[0], StableSort(s[1..], leq), leq);
    }
  }

  lemma TiesOfCons<T>(y: T, s: seq<T>, x: T, leq: (T, T) -> bool)
    ensures Ties([y] + s, x, leq) == Ties([y], x, leq) + Ties(s, x, leq)
  {
    assert ([y] + s)[1..] == s;
  }

  lemma {:induction false} InsertTies<T(!new)>(y: T, s: seq<T>, x: T, leq: (T, T) -> bool)
    requires TotalPreorder(leq)
    ensures Ties(Insert(y, s, leq), x, leq) == Ties([y], x, leq) + Ties(s, x, leq)
  {
    if s == [] || leq(y, s[0]) {
      TiesOfCons(y, s, x, leq);
    } else {
      InsertTies(y, s[1..], x, leq);
      TiesOfCons(s[0], Insert(y, s[1..], leq), x, leq);
      assert s == [s[0]] + s[1..];
      TiesOfCons(s[0], s[1..], x, leq);
      // s[0] is strictly before y, so they do not both tie with x
      assert !(leq(y, x) && leq(x, s[0]));
    }
  }

  /** The sort is stable: elements that tie keep their order. */
  lemma {:induction false} SortIsStable<T(!new)>(s: seq<T>, x: T, leq: (T, T) -> bool)
    requires TotalPreorder(leq)
    ensures Ties(StableSort(s, leq), x, leq) == Ties(s, x, leq)
  {
    if s == [] {
    } else {
      SortIsStable(s[1..], x, leq);
      InsertTies(s[0], StableSort(s[1..], leq), x, leq);
    }
  }

  /** Sorting a sorted list changes nothing, not even among ties. */
  lemma {:induction false} SortOfSorted<T>(s: seq<T>, leq: (T, T) -> bool)
    requires SortedBy(s, leq)
    ensures StableSort(s, leq) == s
  {
    if s == [] {
    } else {
      SortOfSorted(s[1..], leq);
      if |s| > 1 {
        assert leq(s[0], s[1]);
      }
    }
  }

  predicate Distinct<T(==)>(s: seq<T>) {
    forall i, j :: 0 <= i < j < |s| ==> s[i] != s[j]
  }

  lemma {:induction false} DistinctSort<T>(s: seq<T>, leq: (T, T) -> bool)
    requires Distinct(s)
    ensures Distinct(StableSort(s, leq))
  {
    SortKeepsElements(s, leq);
    var t := StableSort(s, leq);
    forall i, j | 0 <= i < j < |t| ensures t[i] != t[j] {
      if t[i] == t[j] {
        assert t == t[..i] + [t[i]] + t[i + 1..j] + [t[j]] + t[j + 1..];
        assert multiset(t)[t[i]] >= 2;
        DistinctCount(s, t[i]);
      }
    }
  }

  lemma {:induction false} DistinctCount<T>(s: seq<T>, x: T)
    requires Distinct(s)
    ensures multiset(s)[x] <= 1
  {
    if s == [] {
    } else {
      DistinctCount(s[1..], x);
      assert s == [s[0]] + s[1..];
      if s[0] == x {
        assert x !in s[1..];
      }
    }
  }

  /** An iteration over a set or a directory: every element once, in an order the caller cannot rely on. */
  method Listing<T(==)>(elements: set<T>) returns (items: seq<T>)
    ensures forall x :: x in items <==> x in elements
    ensures Distinct(items)
    ensures |items| == |elements|
  {
    items := [];
    var rest := elements;
    while rest != {}
      invariant rest <= elements
      invariant forall x :: x in items <==> x in elements && x !in rest
      invariant Distinct(items)
      invariant |items| + |rest| == |elements|
      decreases |rest|
    {
      var x :| x in rest;
      items := items + [x];
      rest := rest - {x};
    }
  }
}
