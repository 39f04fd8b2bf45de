/** Selecting from lists, and sorting them by a key, highest first. */
module Sorting {

  function Filter<T>(s: seq<T>, p: T -> bool): seq<T> {
    if s == [] then []
    else
      var front := Filter(s[..|s| - 1], p);
      if p(s[|s| - 1]) then front + [s[|s| - 1]] else front
  }

  lemma {:induction false} FilterMember<T>(s: seq<T>, p: T -> bool, d: T)
    ensures d in Filter(s, p) <==> d in s && p(d)
  {
    if s != [] {
      FilterMember(s[..|s| - 1], p, d);
      assert s == s[..|s| - 1] + [s[|s| - 1]];
    }
  }

  lemma {:induction false} FilterAppend<T>(s: seq<T>, t: seq<T>, p: T -> bool)
    ensures Filter(s + t, p) == Filter(s, p) + Filter(t, p)
  {
    if t == [] {
      assert s + t == s;
    } else {
      assert (s + t)[..|s + t| - 1] == s + t[..|t| - 1];
      FilterAppend(s, t[..|t| - 1], p);
    }
  }

  predicate Sorted<T>(s: seq<T>, key: T -> real) {
    forall i, j :: 0 <= i < j < |s| ==> key(s[i]) >= key(s[j])
  }

  function Insert<T>(d: T, s: seq<T>, key: T -> real): seq<T> {
    if s == [] || key(s[0]) <= key(d) then [d] + s else [s[0]] + Insert(d, s[1..], key)
  }

  /** Highest key first; equal keys keep their order. */
  function SortBy<T>(s: seq<T>, key: T -> real): seq<T> {
    if s == [] then [] else Insert(s[0], SortBy(s[1..], key), key)
  }

  lemma {:induction false} InsertMultiset<T>(d: T, s: seq<T>, key: T -> real)
    ensures multiset(Insert(d, s, key)) == multiset(s) + multiset{d}
  {
    if s == [] || key(s[0]) <= key(d) {
      assert multiset([d] + s) == multiset{d} + multiset(s);
    } else {
      InsertMultiset(d, s[1..], key);
      assert s == [s[0]] + s[1..];
      assert multiset(Insert(d, s, key)) == multiset{s[0]} + multiset(Insert(d, s[1..], key));
    }
  }

  predicate Below<T>(s: seq<T>, key: T -> real, bound: real) {
    forall k :: 0 <= k < |s| ==> key(s[k]) <= bound
  }

  lemma {:induction false} InsertSorted<T>(d: T, s: seq<T>, key: T -> real, bound: real)
    requires Sorted(s, key) && Below(s, key, bound) && key(d) <= bound
    ensures Sorted(Insert(d, s, key), key) && Below(Insert(d, s, key), key, bound)
  {
    if s != [] && key(s[0]) > key(d) {
      InsertSorted(d, s[1..], key, key(s[0]));
    }
  }

  lemma {:induction false} SortBySorts<T>(s: seq<T>, key: T -> real)
    ensures Sorted(SortBy(s, key), key) && multiset(SortBy(s, key)) == multiset(s)
  {
    if s != [] {
      SortBySorts(s[1..], key);
      var t := SortBy(s[1..], key);
      InsertSorted(s[0], t, key, if t == [] || key(t[0]) <= key(s[0]) then key(s[0]) else key(t[0]));
      InsertMultiset(s[0], t, key);
      assert s == [s[0]] + s[1..];
    }
  }

  lemma FilterCons<T>(d: T, s: seq<T>, p: T -> bool)
    ensures Filter([d] + s, p) == if p(d) then [d] + Filter(s, p) else Filter(s, p)
  {
    FilterAppend([d], s, p);
    assert [d][..0] == [];
  }

  lemma {:induction false} InsertFilter<T>(d: T, s: seq<T>, key: T -> real, p: T -> bool)
    requires Sorted(s, key)
    ensures Filter(Insert(d, s, key), p) == if p(d) then Insert(d, Filter(s, p), key) else Filter(s, p)
  {
    if s == [] || key(s[0]) <= key(d) {
      FilterCons(d, s, p);
      var f := Filter(s, p);
      if f != [] {
        FilterMember(s, p, f[0]);
        assert f[0] in s && key(f[0]) <= key(d);
      }
    } else {
      FilterCons(s[0], Insert(d, s[1..], key), p);
      FilterCons(s[0], s[1..], p);
      assert s == [s[0]] + s[1..];
      InsertFilter(d, s[1..], key, p);
    }
  }

  /** Sorting and selecting commute, so in particular the sort is stable. */
  lemma {:induction false} SortFilter<T>(s: seq<T>, key: T -> real, p: T -> bool)
    ensures Filter(SortBy(s, key), p) == SortBy(Filter(s, p), key)
  {
    if s != [] {
      SortFilter(s[1..], key, p);
      SortBySorts(s[1..], key);
      InsertFilter(s[0], SortBy(s[1..], key), key, p);
      FilterCons(s[0], s[1..], p);
      assert s == [s[0]] + s[1..];
    }
  }
}
