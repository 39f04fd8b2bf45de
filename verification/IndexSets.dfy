/** Sets of indices and their sizes. */
module IndexSets {

  function All(n: nat): (s: set<nat>)
    ensures |s| == n && forall i: nat :: i in s <==> i < n
  {
    if n == 0 then {} else All(n - 1) + {n - 1}
  }

  lemma SubsetSize<T>(a: set<T>, b: set<T>)
    requires a <= b
    ensures |a| <= |b| && (|a| == |b| <==> a == b)
  {
    assert b == a + (b - a);
    assert |b| == |a| + |b - a|;
  }

  function Elements(s: seq<nat>): (r: set<nat>)
    ensures forall x: nat :: x in r <==> x in s
  {
    if s == [] then {} else Elements(s[..|s| - 1]) + {s[|s| - 1]}
  }

  predicate Distinct(s: seq<nat>) {
    forall i, j :: 0 <= i < j < |s| ==> s[i] != s[j]
  }

  lemma {:induction false} DistinctSize(s: seq<nat>)
    requires Distinct(s)
    ensures |Elements(s)| == |s|
  {
    if s != [] {
      DistinctSize(s[..|s| - 1]);
    }
  }

  /** Distinct indices below `n` are at most `n`, and with `n` of them none is missing. */
  lemma DistinctBounded(s: seq<nat>, n: nat)
    requires Distinct(s) && forall x: nat :: x in s ==> x < n
    ensures |s| <= n && (|s| == n ==> Elements(s) == All(n))
  {
    DistinctSize(s);
    SubsetSize(Elements(s), All(n));
  }
}
