/** Sequence operations shared by the pages and the services:
    Array.prototype.filter, sortedness, and the uniqueness of a strictly
    ordered listing. */
module Seqs {

  /** `s.filter(p)`. */
  function Filter<T>(p: T -> bool, s: seq<T>): (r: seq<T>)
    ensures |r| <= |s|
    ensures forall i :: 0 <= i < |r| ==> r[i] in s && p(r[i])
    ensures forall i :: 0 <= i < |s| && p(s[i]) ==> s[i] in r
  {
    if s == [] then []
    else (if p(s[0]) then [s[0]] else []) + Filter(p, s[1..])
  }

  /** Filtering works piecewise, so it keeps the relative order of what it keeps. */
  lemma {:induction false} FilterAppend<T>(p: T -> bool, a: seq<T>, b: seq<T>)
    ensures Filter(p, a + b) == Filter(p, a) + Filter(p, b)
  {
    if a == [] {
      assert a + b == b;
    } else {
      assert (a + b)[1..] == a[1..] + b;
      FilterAppend(p, a[1..], b);
    }
  }

  /** A filter that every element passes changes nothing. */
  lemma {:induction false} FilterKeepsAll<T>(p: T -> bool, s: seq<T>)
    requires forall x :: x in s ==> p(x)
    ensures Filter(p, s) == s
  {
    if s != [] {
      assert s[0] in s;
      FilterKeepsAll(p, s[1..]);
    }
  }

  /** Two filters that agree on the elements of `s` give the same result. */
  lemma {:induction false} FilterCongruent<T>(p: T -> bool, q: T -> bool, s: seq<T>)
    requires forall x :: x in s ==> p(x) == q(x)
    ensures Filter(p, s) == Filter(q, s)
  {
    if s != [] {
      assert s[0] in s;
      FilterCongruent(p, q, s[1..]);
    }
  }

  /** `s.map(f)`. */
  function Map<A, B>(f: A -> B, s: seq<A>): (r: seq<B>)
    ensures |r| == |s|
    ensures forall i :: 0 <= i < |s| ==> r[i] == f(s[i])
  {
    if s == [] then [] else [f(s[0])] + Map(f, s[1..])
  }

  /** Mapping commutes with filtering when the filter on the images agrees
      with the filter on the originals. */
  lemma {:induction false} MapFilter<A, B>(f: A -> B, p: A -> bool, q: B -> bool, s: seq<A>)
    requires forall x :: x in s ==> q(f(x)) == p(x)
    ensures Filter(q, Map(f, s)) == Map(f, Filter(p, s))
  {
    if s != [] {
      assert s[0] in s;
      assert Map(f, s)[1..] == Map(f, s[1..]);
      MapFilter(f, p, q, s[1..]);
    }
  }

  function Count<T>(p: T -> bool, s: seq<T>): nat {
    |Filter(p, s)|
  }

  /** Every earlier element comes `before` every later one. */
  ghost predicate SortedBy<T>(s: seq<T>, before: (T, T) -> bool) {
    forall i, j :: 0 <= i < j < |s| ==> before(s[i], s[j])
  }

  ghost predicate StrictOrder<T(!new)>(before: (T, T) -> bool) {
    (forall x :: !before(x, x))
    && (forall x, y, z :: before(x, y) && before(y, z) ==> before(x, z))
  }

  /** A sequence sorted by a strict order is free of repetitions. */
  lemma SortedDistinct<T(!new)>(s: seq<T>, before: (T, T) -> bool, i: int, j: int)
    requires StrictOrder(before) && SortedBy(s, before)
    requires 0 <= i < j < |s|
    ensures s[i] != s[j]
  {
    assert before(s[i], s[j]);
  }

  /** There is only one way to list a set of elements in a strict order:
      two strictly sorted sequences with the same elements are equal. */
  lemma {:induction false} SortedUnique<T(!new)>(s: seq<T>, t: seq<T>, before: (T, T) -> bool)
    requires StrictOrder(before)
    requires SortedBy(s, before) && SortedBy(t, before)
    requires forall x :: x in s <==> x in t
    ensures s == t
  {
    if s != [] { assert s[0] in t; }
    if t != [] { assert t[0] in s; }
    if s != [] && t != [] {
      forall x ensures x in s[1..] <==> x in t[1..] {
        if x in s[1..] {
          var i :| 1 <= i < |s| && s[i] == x;
          SortedDistinct(s, before, 0, i);
          assert x in t && x != t[0];
          var j :| 0 <= j < |t| && t[j] == x;
          assert t[1..][j - 1] == x;
        }
        if x in t[1..] {
          var i :| 1 <= i < |t| && t[i] == x;
          SortedDistinct(t, before, 0, i);
          assert x in s && x != s[0];
          var j :| 0 <= j < |s| && s[j] == x;
          assert s[1..][j - 1] == x;
        }
      }
      SortedUnique(s[1..], t[1..], before);
      assert s == [s[0]] + s[1..] && t == [t[0]] + t[1..];
    }
  }

  /** Filtering keeps a sequence sorted. */
  lemma {:induction false} FilterSorted<T>(p: T -> bool, s: seq<T>, before: (T, T) -> bool)
    requires SortedBy(s, before)
    ensures SortedBy(Filter(p, s), before)
  {
    if s != [] {
      FilterSorted(p, s[1..], before);
      var r := Filter(p, s[1..]);
      forall j | 0 <= j < |r| ensures before(s[0], r[j]) {
        assert r[j] in s[1..];
      }
    }
  }

  /** Filtering a repetition-free sequence leaves it repetition-free. */
  lemma {:induction false} FilterDistinct<T>(p: T -> bool, s: seq<T>)
    requires forall i, j :: 0 <= i < j < |s| ==> s[i] != s[j]
    ensures forall i, j :: 0 <= i < j < |Filter(p, s)| ==> Filter(p, s)[i] != Filter(p, s)[j]
  {
    if s != [] {
      FilterDistinct(p, s[1..]);
      var rest := Filter(p, s[1..]);
      assert s[0] !in s[1..];
      assert s[0] !in rest;
    }
  }

  /** The elements of a repetition-free sequence number as many as its length. */
  lemma {:induction false} DistinctCardinality<T>(s: seq<T>)
    requires forall i, j :: 0 <= i < j < |s| ==> s[i] != s[j]
    ensures |set x | x in s| == |s|
  {
    if s != [] {
      DistinctCardinality(s[1..]);
      assert (set x | x in s) == (set x | x in s[1..]) + {s[0]};
      assert s[0] !in s[1..];
    }
  }
}
