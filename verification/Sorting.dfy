/** Sorting a list by a total order, as the standard sort does it, and what a sorted
    list is determined by. */
module Sorting {

  ghost predicate TotalOrder<T(!new)>(le: (T, T) -> bool) {
    && (forall a, b :: le(a, b) || le(b, a))
    && (forall a, b :: le(a, b) && le(b, a) ==> a == b)
    && (forall a, b, c :: le(a, b) && le(b, c) ==> le(a, c))
  }

  predicate Sorted<T>(le: (T, T) -> bool, s: seq<T>) {
    forall i, j | 0 <= i <= j < |s| :: le(s[i], s[j])
  }

  function Insert<T>(le: (T, T) -> bool, x: T, s: seq<T>): (r: seq<T>)
    ensures multiset(r) == multiset{x} + multiset(s)
    ensures |r| == |s| + 1
  {
    if s == [] then [x]
    else if le(x, s[0]) then [x] + s
    else
      assert s == [s[0]] + s[1..];
      [s[0]] + Insert(le, x, s[1..])
  }

  function Sort<T>(le: (T, T) -> bool, s: seq<T>): (r: seq<T>)
    ensures multiset(r) == multiset(s)
    ensures |r| == |s|
  {
    if s == [] then []
    else
      assert s == [s[0]] + s[1..];
      Insert(le, s[0], Sort(le, s[1..]))
  }

  lemma {:induction false} InsertSorts<T(!new)>(le: (T, T) -> bool, x: T, s: seq<T>)
    requires TotalOrder(le) && Sorted(le, s)
    ensures Sorted(le, Insert(le, x, s))
  {
    if s != [] && !le(x, s[0]) {
      var rest := Insert(le, x, s[1..]);
      InsertSorts(le, x, s[1..]);
      forall y | y in rest ensures le(s[0], y) {
        assert y in multiset(rest);
        if y != x {
          assert y in s[1..];
        }
      }
    }
  }

  lemma {:induction false} SortSorts<T(!new)>(le: (T, T) -> bool, s: seq<T>)
    requires TotalOrder(le)
    ensures Sorted(le, Sort(le, s))
  {
    if s != [] {
      SortSorts(le, s[1..]);
      InsertSorts(le, s[0], Sort(le, s[1..]));
    }
  }

  lemma LeastFirst<T(!new)>(le: (T, T) -> bool, a: seq<T>, b: seq<T>)
    requires Sorted(le, a) && a != [] && multiset(a) == multiset(b)
    ensures b != [] && le(a[0], b[0])
  {
    assert a[0] in multiset(b) && b != [];
    assert b[0] in multiset(a);
  }

  /** A sorted list is determined by what is in it. */
  lemma {:induction false} SortedIsUnique<T(!new)>(le: (T, T) -> bool, a: seq<T>, b: seq<T>)
    requires TotalOrder(le) && Sorted(le, a) && Sorted(le, b) && multiset(a) == multiset(b)
    ensures a == b
  {
    if a == [] {
      assert |multiset(b)| == 0;
    } else {
      LeastFirst(le, a, b);
      LeastFirst(le, b, a);
      assert a == [a[0]] + a[1..] && b == [b[0]] + b[1..];
      assert multiset(a[1..]) == multiset(a) - multiset{a[0]};
      assert multiset(b[1..]) == multiset(b) - multiset{b[0]};
      SortedIsUnique(le, a[1..], b[1..]);
    }
  }

  function Filter<T>(keep: T -> bool, s: seq<T>): (r: seq<T>)
    ensures |r| <= |s|
  {
    if s == [] then []
    else (if keep(s[0]) then [s[0]] else []) + Filter(keep, s[1..])
  }

  lemma {:induction false} FilterMember<T>(keep: T -> bool, s: seq<T>, x: T)
    ensures x in Filter(keep, s) <==> x in s && keep(x)
  {
    if s != [] {
      FilterMember(keep, s[1..], x);
      assert s == [s[0]] + s[1..];
    }
  }

  lemma {:induction false} FilterCount<T>(keep: T -> bool, s: seq<T>, x: T)
    ensures multiset(Filter(keep, s))[x] == if keep(x) then multiset(s)[x] else 0
  {
    if s != [] {
      FilterCount(keep, s[1..], x);
      assert s == [s[0]] + s[1..];
    }
  }

  lemma {:induction false} FilterSorted<T(!new)>(le: (T, T) -> bool, keep: T -> bool, s: seq<T>)
    requires Sorted(le, s)
    ensures Sorted(le, Filter(keep, s))
  {
    if s != [] {
      FilterSorted(le, keep, s[1..]);
      forall y | y in Filter(keep, s[1..]) ensures le(s[0], y) {
        FilterMember(keep, s[1..], y);
      }
    }
  }

  /** Leaving elements out before sorting or after comes to the same. */
  lemma {:induction false} SortFilter<T(!new)>(le: (T, T) -> bool, keep: T -> bool, s: seq<T>)
    requires TotalOrder(le)
    ensures Sort(le, Filter(keep, s)) == Filter(keep, Sort(le, s))
  {
    SortSorts(le, s);
    SortSorts(le, Filter(keep, s));
    FilterSorted(le, keep, Sort(le, s));
    forall x ensures multiset(Filter(keep, s))[x] == multiset(Filter(keep, Sort(le, s)))[x] {
      FilterCount(keep, s, x);
      FilterCount(keep, Sort(le, s), x);
    }
    assert multiset(Filter(keep, s)) == multiset(Filter(keep, Sort(le, s)));
    SortedIsUnique(le, Sort(le, Filter(keep, s)), Filter(keep, Sort(le, s)));
  }

  /** Inserting opens one gap and moves nothing else. */
  lemma {:induction false} InsertAt<T>(le: (T, T) -> bool, x: T, s: seq<T>) returns (k: nat)
    ensures k <= |s| && Insert(le, x, s) == s[..k] + [x] + s[k..]
  {
    if s == [] || le(x, s[0]) {
      k := 0;
    } else {
      var n := InsertAt(le, x, s[1..]);
      k := n + 1;
      assert s[..k] == [s[0]] + s[1..][..n] && s[k..] == s[1..][n..];
    }
  }

  predicate Distinct<T(==)>(s: seq<T>) {
    forall i, j | 0 <= i < j < |s| :: s[i] != s[j]
  }

  lemma {:induction false} DistinctCounts<T>(s: seq<T>)
    requires Distinct(s)
    ensures forall x | x in s :: multiset(s)[x] == 1
  {
    if s != [] {
      DistinctCounts(s[1..]);
      assert s == [s[0]] + s[1..];
      assert s[0] !in s[1..];
    }
  }

  lemma {:induction false} CountedDistinct<T>(s: seq<T>)
    requires forall x :: multiset(s)[x] <= 1
    ensures Distinct(s)
  {
    if s != [] {
      var rest := s[1..];
      assert s == [s[0]] + rest;
      assert multiset(s) == multiset{s[0]} + multiset(rest);
      assert multiset(s)[s[0]] == 1 + multiset(rest)[s[0]];
      assert s[0] !in multiset(rest);
      forall x ensures multiset(rest)[x] <= 1 {
        assert multiset(s)[x] <= 1;
      }
      CountedDistinct(rest);
    }
  }

  /** Distinct lists of the same elements have the same elements the same number of
      times. */
  lemma SameMembers<T(!new)>(a: seq<T>, b: seq<T>)
    requires Distinct(a) && Distinct(b) && forall x :: x in a <==> x in b
    ensures multiset(a) == multiset(b)
  {
    DistinctCounts(a);
    DistinctCounts(b);
    forall x ensures multiset(a)[x] == multiset(b)[x] {
      if x in a { assert x in b; } else { assert x !in b; }
    }
  }

  lemma SortMembers<T>(le: (T, T) -> bool, s: seq<T>)
    ensures forall x :: x in Sort(le, s) <==> x in s
  {
    forall x ensures x in Sort(le, s) <==> x in s {
      assert x in Sort(le, s) <==> x in multiset(Sort(le, s));
    }
  }

  lemma SortDistinct<T>(le: (T, T) -> bool, s: seq<T>)
    requires Distinct(s)
    ensures Distinct(Sort(le, s))
    ensures forall x :: x in Sort(le, s) <==> x in s
  {
    DistinctCounts(s);
    forall x ensures multiset(Sort(le, s))[x] <= 1 {
      assert x in multiset(s) ==> x in s;
    }
    CountedDistinct(Sort(le, s));
    forall x ensures x in Sort(le, s) <==> x in s {
      assert x in Sort(le, s) <==> x in multiset(s);
    }
  }
}
