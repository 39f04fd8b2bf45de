/** Contiguous tensors: a shape and row-major data, with `view` and `permute(...).contiguous()`. */
module Tensors {
  import opened Messages
  import opened Numbers

  datatype Tensor = Tensor(shape: seq<nat>, data: seq<real>) {
    predicate Valid() { |data| == Numel(shape) }
  }

  function Numel(shape: seq<nat>): nat {
    if shape == [] then 1 else Numel(shape[..|shape| - 1]) * shape[|shape| - 1]
  }

  predicate Inside(idx: seq<nat>, shape: seq<nat>) {
    |idx| == |shape| && forall d :: 0 <= d < |shape| ==> idx[d] < shape[d]
  }

  /** Row-major position of an index. */
  function Offset(shape: seq<nat>, idx: seq<nat>): nat
    requires |idx| == |shape|
  {
    if shape == [] then 0
    else Offset(shape[..|shape| - 1], idx[..|idx| - 1]) * shape[|shape| - 1] + idx[|idx| - 1]
  }

  /** The index at a position. */
  function Unravel(shape: seq<nat>, n: nat): (idx: seq<nat>)
    ensures |idx| == |shape|
  {
    if shape == [] then []
    else
      var last := shape[|shape| - 1];
      if last == 0 then seq(|shape|, _ => 0)
      else Unravel(shape[..|shape| - 1], n / last) + [n % last]
  }

  lemma InRange(a: nat, n: nat, r: nat, m: nat)
    requires a < n && r < m
    ensures a * m + r < n * m
  {
    ScaleInt(a + 1, n, m);
    assert (a + 1) * m == a * m + m;
  }

  lemma Quotient(a: nat, r: nat, m: nat)
    requires r < m
    ensures (a * m + r) / m == a && (a * m + r) % m == r
  {
    var n := a * m + r;
    assert n == (n / m) * m + n % m;
    if n / m > a { ScaleInt(a + 1, n / m, m); assert false; }
    if n / m < a { ScaleInt(n / m + 1, a, m); assert false; }
  }

  lemma QuotientInRange(n: nat, a: nat, m: nat)
    requires n < a * m
    ensures m > 0 && n / m < a
  {
    if m > 0 {
      assert n == (n / m) * m + n % m;
      if n / m >= a { ScaleInt(a, n / m, m); assert false; }
    }
  }

  /** Indices inside a shape and positions below its size correspond one to one. */
  lemma {:induction false} OffsetInRange(shape: seq<nat>, idx: seq<nat>)
    requires Inside(idx, shape)
    ensures Offset(shape, idx) < Numel(shape) && Unravel(shape, Offset(shape, idx)) == idx
  {
    if shape != [] {
      var front, last := shape[..|shape| - 1], shape[|shape| - 1];
      var i, r := idx[..|idx| - 1], idx[|idx| - 1];
      OffsetInRange(front, i);
      InRange(Offset(front, i), Numel(front), r, last);
      Quotient(Offset(front, i), r, last);
      assert idx == i + [r];
    }
  }

  lemma {:induction false} UnravelInside(shape: seq<nat>, n: nat)
    requires n < Numel(shape)
    ensures Inside(Unravel(shape, n), shape) && Offset(shape, Unravel(shape, n)) == n
  {
    if shape != [] {
      var front, last := shape[..|shape| - 1], shape[|shape| - 1];
      QuotientInRange(n, Numel(front), last);
      UnravelInside(front, n / last);
      var i := Unravel(front, n / last);
      assert Unravel(shape, n) == i + [n % last];
      assert (i + [n % last])[..|i|] == i;
    }
  }

  function At(t: Tensor, idx: seq<nat>): real
    requires t.Valid() && Inside(idx, t.shape)
  {
    OffsetInRange(t.shape, idx);
    t.data[Offset(t.shape, idx)]
  }

  /** Tensors with equal elements are equal. */
  lemma SameTensor(t: Tensor, u: Tensor)
    requires t.Valid() && u.Valid() && t.shape == u.shape
    requires forall idx :: Inside(idx, t.shape) ==> At(t, idx) == At(u, idx)
    ensures t == u
  {
    forall n | 0 <= n < |t.data|
      ensures t.data[n] == u.data[n]
    {
      UnravelInside(t.shape, n);
      assert At(t, Unravel(t.shape, n)) == At(u, Unravel(t.shape, n));
    }
  }

  // ---- view ----

  function View(t: Tensor, shape: seq<nat>): (r: Option<Tensor>)
    ensures r.Some? && t.Valid() ==> r.value.Valid()
  {
    if Numel(shape) == |t.data| then Some(Tensor(shape, t.data)) else None
  }

  // ---- permute ----

  predicate IsPerm(p: seq<nat>) {
    && (forall k :: 0 <= k < |p| ==> p[k] < |p|)
    && (forall i, j :: 0 <= i < j < |p| ==> p[i] != p[j])
    && (forall d :: 0 <= d < |p| ==> d in p)
  }

  function Pick(s: seq<nat>, p: seq<nat>): (r: seq<nat>)
    requires IsPerm(p) && |s| == |p|
    ensures |r| == |p| && forall k :: 0 <= k < |p| ==> r[k] == s[p[k]]
  {
    seq(|p|, k requires 0 <= k < |p| => s[p[k]])
  }

  function Position(p: seq<nat>, d: nat): (k: nat)
    requires d in p
    ensures k < |p| && p[k] == d
  {
    if p[0] == d then 0 else 1 + Position(p[1..], d)
  }

  /** The index that `Pick` maps to `idx`. */
  function Unpick(idx: seq<nat>, p: seq<nat>): (r: seq<nat>)
    requires IsPerm(p) && |idx| == |p|
    ensures |r| == |p|
  {
    seq(|p|, d requires 0 <= d < |p| => idx[Position(p, d)])
  }

  lemma UnpickInside(idx: seq<nat>, shape: seq<nat>, p: seq<nat>)
    requires IsPerm(p) && |shape| == |p| && Inside(idx, Pick(shape, p))
    ensures Inside(Unpick(idx, p), shape)
  {
  }

  lemma UnpickPick(idx: seq<nat>, p: seq<nat>)
    requires IsPerm(p) && |idx| == |p|
    ensures Unpick(Pick(idx, p), p) == idx
  {
  }

  /** Output dimension `k` is input dimension `p[k]`. */
  function Permute(t: Tensor, p: seq<nat>): (u: Tensor)
    requires t.Valid() && IsPerm(p) && |t.shape| == |p|
    ensures u.Valid() && u.shape == Pick(t.shape, p)
  {
    var shape := Pick(t.shape, p);
    Tensor(shape, seq(Numel(shape), n requires 0 <= n < Numel(shape) =>
      UnravelInside(shape, n);
      UnpickInside(Unravel(shape, n), t.shape, p);
      At(t, Unpick(Unravel(shape, n), p))))
  }

  lemma PermuteAt(t: Tensor, p: seq<nat>, idx: seq<nat>)
    requires t.Valid() && IsPerm(p) && |t.shape| == |p| && Inside(idx, t.shape)
    ensures Inside(Pick(idx, p), Pick(t.shape, p)) && At(Permute(t, p), Pick(idx, p)) == At(t, idx)
  {
    var shape := Pick(t.shape, p);
    OffsetInRange(shape, Pick(idx, p));
    UnpickPick(idx, p);
  }

  /** `q` undoes `p`. */
  predicate Undoes(q: seq<nat>, p: seq<nat>) {
    IsPerm(p) && IsPerm(q) && |p| == |q| && forall k :: 0 <= k < |q| ==> p[q[k]] == k
  }

  lemma PermuteBack(t: Tensor, p: seq<nat>, q: seq<nat>)
    requires t.Valid() && |t.shape| == |p| && Undoes(q, p)
    ensures Permute(Permute(t, p), q) == t
  {
    var u := Permute(t, p);
    var v := Permute(u, q);
    assert Pick(Pick(t.shape, p), q) == t.shape;
    forall idx | Inside(idx, t.shape)
      ensures At(v, idx) == At(t, idx)
    {
      PermuteAt(t, p, idx);
      PermuteAt(u, q, Pick(idx, p));
      assert Pick(Pick(idx, p), q) == idx;
    }
    SameTensor(v, t);
  }

  // ---- Tensors given by their elements ----

  function FromIndex(shape: seq<nat>, f: seq<nat> --> real): (t: Tensor)
    requires forall idx :: Inside(idx, shape) ==> f.requires(idx)
    ensures t.Valid() && t.shape == shape
  {
    Tensor(shape, seq(Numel(shape), n requires 0 <= n < Numel(shape) =>
      UnravelInside(shape, n);
      f(Unravel(shape, n))))
  }

  lemma FromIndexAt(shape: seq<nat>, f: seq<nat> --> real, idx: seq<nat>)
    requires (forall i :: Inside(i, shape) ==> f.requires(i)) && Inside(idx, shape)
    ensures At(FromIndex(shape, f), idx) == f(idx)
  {
    OffsetInRange(shape, idx);
  }

  lemma OffsetNext(shape: seq<nat>, n: nat, idx: seq<nat>, i: nat)
    requires |idx| == |shape|
    ensures Offset(shape + [n], idx + [i]) == Offset(shape, idx) * n + i
  {
    assert (shape + [n])[..|shape|] == shape && (idx + [i])[..|idx|] == idx;
  }
}
