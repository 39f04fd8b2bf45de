/** Moving blocks of pixels into channels and back (yolov5/models/common.py, `Contract`, `Expand`).
    Tensors have the shape [batch, channels, height, width]. */
module SpaceDepth {
  import opened Messages
  import opened Numbers
  import opened Tensors

  const SPLIT: seq<nat> := [0, 3, 5, 1, 2, 4]
  const MERGE: seq<nat> := [0, 3, 4, 1, 5, 2]

  lemma Perms()
    ensures Undoes(MERGE, SPLIT) && Undoes(SPLIT, MERGE)
  {
    assert SPLIT[0] == 0 && SPLIT[1] == 3 && SPLIT[2] == 5 && SPLIT[3] == 1 && SPLIT[4] == 2 && SPLIT[5] == 4;
    assert MERGE[0] == 0 && MERGE[1] == 3 && MERGE[2] == 4 && MERGE[3] == 1 && MERGE[4] == 5 && MERGE[5] == 2;
    assert IsPerm(SPLIT) && IsPerm(MERGE);
  }

  predicate Is4D(x: Tensor) { x.Valid() && |x.shape| == 4 }

  function Contract(x: Tensor, s: nat): (r: Option<Tensor>)
    requires Is4D(x) && s > 0
    ensures r.Some? ==> Is4D(r.value)
  {
    var b, c, h, w := x.shape[0], x.shape[1], x.shape[2], x.shape[3];
    match View(x, [b, c, h / s, s, w / s, s])
    case None => None
    case Some(v) =>
      Perms();
      View(Permute(v, SPLIT), [b, c * s * s, h / s, w / s])
  }

  function Expand(x: Tensor, s: nat): (r: Option<Tensor>)
    requires Is4D(x) && s > 0
    ensures r.Some? ==> Is4D(r.value)
  {
    var b, c, h, w := x.shape[0], x.shape[1], x.shape[2], x.shape[3];
    match View(x, [b, s, s, Block(c, s), h, w])
    case None => None
    case Some(v) =>
      Perms();
      View(Permute(v, MERGE), [b, Block(c, s), h * s, w * s])
  }

  /** `c // s ** 2`. */
  function Block(c: nat, s: nat): nat
    requires s > 0
  {
    assert s * s > 0;
    c / (s * s)
  }

  lemma NumelNext(shape: seq<nat>, n: nat)
    ensures Numel(shape + [n]) == Numel(shape) * n
  {
    assert (shape + [n])[..|shape|] == shape;
  }

  lemma Numel4(a: nat, b: nat, c: nat, d: nat)
    ensures Numel([a, b, c, d]) == a * b * c * d
  {
    Numel2(a, b);
    NumelNext([a, b], c);
    NumelNext([a, b, c], d);
    assert [a, b] + [c] == [a, b, c] && [a, b, c] + [d] == [a, b, c, d];
  }

  lemma Numel2(a: nat, b: nat)
    ensures Numel([a, b]) == a * b
  {
    NumelNext([], a);
    NumelNext([a], b);
    assert [] + [a] == [a] && [a] + [b] == [a, b] && Numel([]) == 1;
  }

  lemma Numel6(a: nat, b: nat, c: nat, d: nat, e: nat, f: nat)
    ensures Numel([a, b, c, d, e, f]) == a * b * c * d * e * f
  {
    Numel4(a, b, c, d);
    NumelNext([a, b, c, d], e);
    NumelNext([a, b, c, d, e], f);
    assert [a, b, c, d] + [e] == [a, b, c, d, e] && [a, b, c, d, e] + [f] == [a, b, c, d, e, f];
  }

  /** Every view of a contraction or expansion holds the same number of elements. */
  lemma SameSizes(b: nat, c: nat, h: nat, w: nat, s: nat)
    ensures Numel([b, c, h * s, w * s]) == Numel([b, c, h, s, w, s])
    ensures Numel([b, c * s * s, h, w]) == Numel([b, s, s, c, h, w]) == Numel([b, c, h, s, w, s])
  {
    Numel4(b, c, h * s, w * s);
    Numel6(b, c, h, s, w, s);
    Numel4(b, c * s * s, h, w);
    Numel6(b, s, s, c, h, w);
    Outer(b * c, h, w, s);
    Inner(b, c, h, w, s);
  }

  lemma Outer(a: nat, h: nat, w: nat, s: nat)
    ensures a * (h * s) * (w * s) == a * h * s * w * s
  {
    assert a * (h * s) == a * h * s;
    var k := a * h * s;
    assert k * (w * s) == k * w * s;
  }

  lemma Inner(b: nat, c: nat, h: nat, w: nat, s: nat)
    ensures b * (c * s * s) * h * w == b * s * s * c * h * w == b * c * h * s * w * s
  {
    assert b * (c * s * s) == b * s * s * c == b * c * s * s;
    var k := b * c;
    assert k * s * s * h * w == k * h * s * w * s;
  }

  lemma BlockOf(c: nat, s: nat)
    requires s > 0
    ensures Block(c * s * s, s) == c && c * s * s == c * (s * s)
  {
    assert c * s * s == c * (s * s);
    assert s * s > 0;
    Quotient(c, 0, s * s);
  }

  lemma Picks(b: nat, c: nat, h: nat, s: nat, w: nat, t: nat)
    ensures IsPerm(SPLIT) && IsPerm(MERGE)
    ensures Pick([b, c, h, s, w, t], SPLIT) == [b, s, t, c, h, w]
    ensures Pick([b, s, t, c, h, w], MERGE) == [b, c, h, s, w, t]
  {
    Perms();
  }

  /** What a contraction is when the gain divides height and width. */
  lemma ContractIs(x: Tensor, b: nat, c: nat, h: nat, w: nat, s: nat)
    requires x.Valid() && s > 0 && x.shape == [b, c, h * s, w * s]
    ensures IsPerm(SPLIT) && Tensor([b, c, h, s, w, s], x.data).Valid()
    ensures Contract(x, s) == Some(Tensor([b, c * s * s, h, w],
                                          Permute(Tensor([b, c, h, s, w, s], x.data), SPLIT).data))
  {
    SameSizes(b, c, h, w, s);
    Picks(b, c, h, s, w, s);
    Quotient(h, 0, s);
    Quotient(w, 0, s);
  }

  lemma ExpandIs(x: Tensor, b: nat, c: nat, h: nat, w: nat, s: nat)
    requires x.Valid() && s > 0 && x.shape == [b, c * s * s, h, w]
    ensures IsPerm(MERGE) && Tensor([b, s, s, c, h, w], x.data).Valid()
    ensures Expand(x, s) == Some(Tensor([b, c, h * s, w * s], Permute(Tensor([b, s, s, c, h, w], x.data), MERGE).data))
  {
    SameSizes(b, c, h, w, s);
    Picks(b, c, h, s, w, s);
    BlockOf(c, s);
  }

  lemma {:induction false} ExpandAfterContract(x: Tensor, b: nat, c: nat, h: nat, w: nat, s: nat)
    requires x.Valid() && s > 0 && x.shape == [b, c, h * s, w * s]
    ensures Contract(x, s).Some? && Expand(Contract(x, s).value, s) == Some(x)
  {
    ContractIs(x, b, c, h, w, s);
    var y := Contract(x, s).value;
    ExpandIs(y, b, c, h, w, s);
    Perms();
    Picks(b, c, h, s, w, s);
    var v := Tensor([b, c, h, s, w, s], x.data);
    assert Tensor([b, s, s, c, h, w], y.data) == Permute(v, SPLIT);
    PermuteBack(v, SPLIT, MERGE);
  }

  lemma {:induction false} ContractAfterExpand(x: Tensor, b: nat, c: nat, h: nat, w: nat, s: nat)
    requires x.Valid() && s > 0 && x.shape == [b, c * s * s, h, w]
    ensures Expand(x, s).Some? && Contract(Expand(x, s).value, s) == Some(x)
  {
    ExpandIs(x, b, c, h, w, s);
    var y := Expand(x, s).value;
    ContractIs(y, b, c, h, w, s);
    Perms();
    Picks(b, c, h, s, w, s);
    var v := Tensor([b, s, s, c, h, w], x.data);
    assert Tensor([b, c, h, s, w, s], y.data) == Permute(v, MERGE);
    PermuteBack(v, MERGE, SPLIT);
  }

  lemma Divided(n: nat, s: nat) returns (q: nat)
    requires s > 0 && n % s == 0
    ensures n == q * s
  {
    q := n / s;
  }

  /** Expanding undoes contracting whenever the gain divides height and width. */
  lemma ExpandUndoesContract(x: Tensor, s: nat)
    requires Is4D(x) && s > 0 && x.shape[2] % s == 0 && x.shape[3] % s == 0
    ensures Contract(x, s).Some? && Expand(Contract(x, s).value, s) == Some(x)
  {
    var h := Divided(x.shape[2], s);
    var w := Divided(x.shape[3], s);
    ExpandAfterContract(x, x.shape[0], x.shape[1], h, w, s);
  }

  /** Contracting undoes expanding whenever the gain's square divides the channels. */
  lemma ContractUndoesExpand(x: Tensor, s: nat)
    requires Is4D(x) && s > 0 && s * s > 0 && x.shape[1] % (s * s) == 0
    ensures Expand(x, s).Some? && Contract(Expand(x, s).value, s) == Some(x)
  {
    var c := Divided(x.shape[1], s * s);
    BlockOf(c, s);
    ContractAfterExpand(x, x.shape[0], c, x.shape[2], x.shape[3], s);
  }

  // ---- Exactly when they work ----

  lemma FullProduct(a: nat, h': nat, h: nat, w': nat, w: nat)
    requires a > 0 && h' <= h && w' <= w && h > 0 && w > 0 && a * h' * w' == a * h * w
    ensures h' == h && w' == w
  {
    var p, q := h' * w', h * w;
    assert a * p == a * h' * w' && a * q == a * h * w;
    assert p == q by {
      if p < q { ScaleInt(p + 1, q, a); assert false; }
      if q < p { ScaleInt(q + 1, p, a); assert false; }
    }
    if h' < h {
      ScaleInt(h' + 1, h, w);
      ScaleInt(w', w, h');
      assert false;
    }
    if w' < w { ScaleInt(w' + 1, w, h); assert false; }
  }

  lemma RoundedDown(n: nat, s: nat)
    requires s > 0
    ensures n / s * s <= n && (n / s * s == n <==> n % s == 0)
  {
    assert n == n / s * s + n % s;
  }

  /** Of a tensor with elements, a contraction exists exactly when the gain divides height and width. */
  lemma ContractWorksIff(x: Tensor, s: nat)
    requires Is4D(x) && s > 0 && |x.data| > 0
    ensures Contract(x, s).Some? <==> x.shape[2] % s == 0 && x.shape[3] % s == 0
  {
    var b, c, h, w := x.shape[0], x.shape[1], x.shape[2], x.shape[3];
    assert x.shape == [b, c, h, w];
    Numel4(b, c, h, w);
    Positive(b, c, h, w);
    RoundedDown(h, s);
    RoundedDown(w, s);
    if Contract(x, s).Some? {
      Numel6(b, c, h / s, s, w / s, s);
      Outer(b * c, h / s, w / s, s);
      FullProduct(b * c, h / s * s, h, w / s * s, w);
    } else if h % s == 0 && w % s == 0 {
      ExpandUndoesContract(x, s);
    }
  }

  lemma Positive(b: nat, c: nat, h: nat, w: nat)
    requires b * c * h * w > 0
    ensures b * c > 0 && h > 0 && w > 0 && b > 0 && c > 0 && b * h * w > 0
  {
    assert h > 0 && w > 0 && b > 0 && c > 0;
    ScaleInt(1, b, c);
    ScaleInt(1, b, h);
    ScaleInt(1, b * h, w);
  }

  /** An expansion exists exactly when the gain's square divides the channels. */
  lemma ExpandWorksIff(x: Tensor, s: nat)
    requires Is4D(x) && s > 0 && s * s > 0 && |x.data| > 0
    ensures Expand(x, s).Some? <==> x.shape[1] % (s * s) == 0
  {
    var b, c, h, w := x.shape[0], x.shape[1], x.shape[2], x.shape[3];
    assert x.shape == [b, c, h, w];
    var q := Block(c, s);
    Numel4(b, c, h, w);
    Positive(b, c, h, w);
    RoundedDown(c, s * s);
    if Expand(x, s).Some? {
      Numel6(b, s, s, q, h, w);
      Gathered(b, s, q, h, w);
      Gathered(b, 1, c, h, w);
      Cancelled(b * h * w, q * (s * s), c);
    } else if c % (s * s) == 0 {
      ContractUndoesExpand(x, s);
    }
  }

  lemma Cancelled(k: nat, a: nat, c: nat)
    requires k > 0 && a <= c && a * k == c * k
    ensures a == c
  {
    if a < c { ScaleInt(a + 1, c, k); assert false; }
  }

  lemma Gathered(b: nat, s: nat, q: nat, h: nat, w: nat)
    ensures b * s * s * q * h * w == q * (s * s) * (b * h * w)
  {
    var t := s * s;
    assert b * s * s == b * t;
    assert b * t * q * h * w == q * t * (b * h * w);
  }

  // ---- What they move where ----

  lemma Offset4(a: nat, b: nat, c: nat, d: nat, i: nat, j: nat, k: nat, l: nat)
    ensures Offset([a, b, c, d], [i, j, k, l]) == ((i * b + j) * c + k) * d + l
  {
    OffsetNext([], a, [], i);
    OffsetNext([a], b, [i], j);
    OffsetNext([a, b], c, [i, j], k);
    OffsetNext([a, b, c], d, [i, j, k], l);
    assert [] + [a] == [a] && [a] + [b] == [a, b] && [a, b] + [c] == [a, b, c] && [a, b, c] + [d] == [a, b, c, d];
    assert [] + [i] == [i] && [i] + [j] == [i, j] && [i, j] + [k] == [i, j, k] && [i, j, k] + [l] == [i, j, k, l];
  }

  lemma Offset6(a: nat, b: nat, c: nat, d: nat, e: nat, f: nat, i: nat, j: nat, k: nat, l: nat, m: nat, n: nat)
    ensures Offset([a, b, c, d, e, f], [i, j, k, l, m, n]) == ((((i * b + j) * c + k) * d + l) * e + m) * f + n
  {
    Offset4(a, b, c, d, i, j, k, l);
    OffsetNext([a, b, c, d], e, [i, j, k, l], m);
    OffsetNext([a, b, c, d, e], f, [i, j, k, l, m], n);
    assert [a, b, c, d] + [e] == [a, b, c, d, e] && [a, b, c, d, e] + [f] == [a, b, c, d, e, f];
    assert [i, j, k, l] + [m] == [i, j, k, l, m] && [i, j, k, l, m] + [n] == [i, j, k, l, m, n];
  }

  lemma SpreadPosition(p: nat, H: nat, W: nat, s: nat, y: nat, i: nat, z: nat, j: nat)
    ensures (p * (H * s) + (y * s + i)) * (W * s) + (z * s + j) == (((p * H + y) * s + i) * W + z) * s + j
  {
    assert p * (H * s) + (y * s + i) == (p * H + y) * s + i by {
      assert (p * H + y) * s == p * H * s + y * s;
    }
    var r := (p * H + y) * s + i;
    assert r * (W * s) == r * W * s;
    assert (r * W + z) * s == r * W * s + z * s;
  }

  lemma DeepPosition(b: nat, C: nat, s: nat, i: nat, j: nat, c: nat)
    ensures b * (C * s * s) + ((i * s + j) * C + c) == ((b * s + i) * s + j) * C + c
  {
    var t := s * s;
    assert C * s * s == C * t && (b * s + i) * s == b * t + i * s;
    assert (b * t + i * s + j) * C == b * t * C + (i * s + j) * C;
    assert b * t * C == b * (C * t);
  }

  /** A channel of block `i * s + j`, and a row or column of a block. */
  function Deep(i: nat, j: nat, s: nat, C: nat, c: nat): nat { (i * s + j) * C + c }
  function Spread(y: nat, s: nat, i: nat): nat { y * s + i }

  lemma SameSpread(B: nat, C: nat, H: nat, W: nat, s: nat, b: nat, c: nat, y: nat, z: nat, i: nat, j: nat)
    ensures Offset([B, C, H, s, W, s], [b, c, y, i, z, j]) ==
        Offset([B, C, H * s, W * s], [b, c, Spread(y, s, i), Spread(z, s, j)])
  {
    Offset4(B, C, H * s, W * s, b, c, y * s + i, z * s + j);
    Offset6(B, C, H, s, W, s, b, c, y, i, z, j);
    SpreadPosition(b * C + c, H, W, s, y, i, z, j);
  }

  lemma SameDeep(B: nat, C: nat, H: nat, W: nat, s: nat, b: nat, c: nat, y: nat, z: nat, i: nat, j: nat)
    ensures Offset([B, s, s, C, H, W], [b, i, j, c, y, z]) ==
        Offset([B, C * s * s, H, W], [b, Deep(i, j, s, C, c), y, z])
  {
    Offset4(B, C * s * s, H, W, b, (i * s + j) * C + c, y, z);
    Offset6(B, s, s, C, H, W, b, i, j, c, y, z);
    DeepPosition(b, C, s, i, j, c);
  }

  lemma PlacesInside(C: nat, H: nat, W: nat, s: nat, c: nat, y: nat, z: nat, i: nat, j: nat)
    requires c < C && y < H && z < W && i < s && j < s
    ensures Deep(i, j, s, C, c) < C * s * s && Spread(y, s, i) < H * s && Spread(z, s, j) < W * s
  {
    InRange(i, s, j, s);
    InRange(i * s + j, s * s, c, C);
    assert s * s * C == C * s * s;
    InRange(y, H, i, s);
    InRange(z, W, j, s);
  }

  lemma MovedTo(v: Tensor, from: seq<nat>, to: seq<nat>, shape: seq<nat>)
    requires v.Valid() && IsPerm(SPLIT) && |v.shape| == 6 && Inside(from, v.shape)
    requires Pick(from, SPLIT) == to && Pick(v.shape, SPLIT) == shape
    ensures Permute(v, SPLIT).shape == shape && Inside(to, shape) && At(Permute(v, SPLIT), to) == At(v, from)
  {
    PermuteAt(v, SPLIT, from);
  }

  lemma Moved(v: Tensor, B: nat, C: nat, H: nat, W: nat, s: nat, b: nat, c: nat, y: nat, z: nat, i: nat, j: nat)
    requires v.Valid() && v.shape == [B, C, H, s, W, s] && IsPerm(SPLIT)
    requires b < B && c < C && y < H && z < W && i < s && j < s
    ensures var u := Permute(v, SPLIT);
            && u.shape == [B, s, s, C, H, W]
            && At(u, [b, i, j, c, y, z]) == At(v, [b, c, y, i, z, j])
  {
    Picks(B, C, H, s, W, s);
    Picks(b, c, y, i, z, j);
    MovedTo(v, [b, c, y, i, z, j], [b, i, j, c, y, z], [B, s, s, C, H, W]);
  }

  /** The pixel at row `i` and column `j` of a block becomes channel block `i * s + j`. */
  lemma ContractAt(x: Tensor, B: nat, C: nat, H: nat, W: nat, s: nat, b: nat, c: nat, y: nat, z: nat, i: nat, j: nat)
    requires x.Valid() && s > 0 && x.shape == [B, C, H * s, W * s]
    requires b < B && c < C && y < H && z < W && i < s && j < s
    ensures var r := Contract(x, s);
            && r.Some? && r.value.shape == [B, C * s * s, H, W]
            && Inside([b, Deep(i, j, s, C, c), y, z], r.value.shape)
            && Inside([b, c, Spread(y, s, i), Spread(z, s, j)], x.shape)
            && At(r.value, [b, Deep(i, j, s, C, c), y, z]) == At(x, [b, c, Spread(y, s, i), Spread(z, s, j)])
  {
    ContractIs(x, B, C, H, W, s);
    Moved(Tensor([B, C, H, s, W, s], x.data), B, C, H, W, s, b, c, y, z, i, j);
    PlacesInside(C, H, W, s, c, y, z, i, j);
    SameSpread(B, C, H, W, s, b, c, y, z, i, j);
    SameDeep(B, C, H, W, s, b, c, y, z, i, j);
  }
}
