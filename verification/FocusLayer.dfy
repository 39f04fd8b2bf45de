/** Focusing (yolov5/models/common.py, `Focus`): the four slices of every 2 x 2 block, stacked as channels,
    are a contraction by 2 with its two middle channel blocks swapped. */
module FocusLayer {
  import opened Messages
  import opened Tensors
  import opened SpaceDepth

  /** `len(range(i, n, 2))` for i < 2. */
  function Half(n: nat, i: nat): nat { if n < i then 0 else (n - i + 1) / 2 }

  function SliceShape(x: Tensor, i: nat, j: nat): seq<nat>
    requires Is4D(x)
  {
    [x.shape[0], x.shape[1], Half(x.shape[2], i), Half(x.shape[3], j)]
  }

  /** `x[..., i::2, j::2]`. */
  function Slice(x: Tensor, i: nat, j: nat): (r: Tensor)
    requires Is4D(x) && i < 2 && j < 2
    ensures Is4D(r) && r.shape == SliceShape(x, i, j)
  {
    FromIndex(SliceShape(x, i, j), (idx: seq<nat>) requires Inside(idx, SliceShape(x, i, j)) =>
      At(x, [idx[0], idx[1], Spread(idx[2], 2, i), Spread(idx[3], 2, j)]))
  }

  predicate SameButChannels(t: Tensor, u: Tensor)
    requires Is4D(t) && Is4D(u)
  {
    t.shape[0] == u.shape[0] && t.shape[2] == u.shape[2] && t.shape[3] == u.shape[3]
  }

  function CatShape(t: Tensor, u: Tensor): seq<nat>
    requires Is4D(t) && Is4D(u)
  {
    [t.shape[0], t.shape[1] + u.shape[1], t.shape[2], t.shape[3]]
  }

  /** `torch.cat((t, u), 1)`. */
  function Cat(t: Tensor, u: Tensor): (r: Option<Tensor>)
    requires Is4D(t) && Is4D(u)
    ensures r.Some? ==> Is4D(r.value) && r.value.shape == CatShape(t, u)
  {
    if !SameButChannels(t, u) then None
    else
      Some(FromIndex(CatShape(t, u), (idx: seq<nat>) requires Inside(idx, CatShape(t, u)) =>
        if idx[1] < t.shape[1] then At(t, idx) else At(u, [idx[0], idx[1] - t.shape[1], idx[2], idx[3]])))
  }

  function CatAll(t: Tensor, us: seq<Tensor>): (r: Option<Tensor>)
    requires Is4D(t) && forall u :: u in us ==> Is4D(u)
    ensures r.Some? ==> Is4D(r.value)
    decreases |us|
  {
    if us == [] then Some(t)
    else match Cat(t, us[0])
      case None => None
      case Some(v) => CatAll(v, us[1..])
  }

  /** What `Focus` passes to its convolution. */
  function Focus(x: Tensor): (r: Option<Tensor>)
    requires Is4D(x)
    ensures r.Some? ==> Is4D(r.value)
  {
    CatAll(Slice(x, 0, 0), [Slice(x, 1, 0), Slice(x, 0, 1), Slice(x, 1, 1)])
  }

  /** The element at an index is `v`. */
  predicate Elem(t: Tensor, b: nat, c: nat, y: nat, z: nat, v: real) {
    t.Valid() && Inside([b, c, y, z], t.shape) && At(t, [b, c, y, z]) == v
  }

  lemma SliceAt(x: Tensor, i: nat, j: nat, b: nat, c: nat, y: nat, z: nat, v: real)
    requires Is4D(x) && i < 2 && j < 2 && Inside([b, c, y, z], SliceShape(x, i, j))
    requires Elem(x, b, c, Spread(y, 2, i), Spread(z, 2, j), v)
    ensures Elem(Slice(x, i, j), b, c, y, z, v)
  {
    FromIndexAt(SliceShape(x, i, j), (idx: seq<nat>) requires Inside(idx, SliceShape(x, i, j)) =>
      At(x, [idx[0], idx[1], Spread(idx[2], 2, i), Spread(idx[3], 2, j)]), [b, c, y, z]);
  }

  lemma CatLeft(t: Tensor, u: Tensor, r: Tensor, b: nat, c: nat, y: nat, z: nat, v: real)
    requires Is4D(t) && Is4D(u) && Cat(t, u) == Some(r) && Elem(t, b, c, y, z, v)
    ensures Elem(r, b, c, y, z, v)
  {
    FromIndexAt(CatShape(t, u), (idx: seq<nat>) requires Inside(idx, CatShape(t, u)) =>
      if idx[1] < t.shape[1] then At(t, idx) else At(u, [idx[0], idx[1] - t.shape[1], idx[2], idx[3]]), [b, c, y, z]);
  }

  lemma CatRight(t: Tensor, u: Tensor, r: Tensor, b: nat, c: nat, y: nat, z: nat, v: real)
    requires Is4D(t) && Is4D(u) && Cat(t, u) == Some(r) && Elem(u, b, c, y, z, v)
    ensures Elem(r, b, t.shape[1] + c, y, z, v)
  {
    FromIndexAt(CatShape(t, u), (idx: seq<nat>) requires Inside(idx, CatShape(t, u)) =>
      if idx[1] < t.shape[1] then At(t, idx)
          else At(u, [idx[0], idx[1] - t.shape[1], idx[2], idx[3]]), [b, t.shape[1] + c, y, z]);
  }

  lemma CatAllNext(t: Tensor, u: Tensor, us: seq<Tensor>)
    requires Is4D(t) && Is4D(u) && forall v :: v in us ==> Is4D(v)
    ensures CatAll(t, [u] + us) == (match Cat(t, u) case None => None case Some(v) => CatAll(v, us))
  {
    assert ([u] + us)[1..] == us;
  }

  lemma Four(t: Tensor, u1: Tensor, u2: Tensor, u3: Tensor)
    requires Is4D(t) && Is4D(u1) && Is4D(u2) && Is4D(u3)
    ensures CatAll(t, [u1, u2, u3]) ==
            match Cat(t, u1)
            case None => None
            case Some(v) =>
              match Cat(v, u2)
              case None => None
              case Some(w) => Cat(w, u3)
  {
    assert [u1, u2, u3] == [u1] + [u2, u3] && [u2, u3] == [u2] + [u3] && [u3] == [u3] + [];
    CatAllNext(t, u1, [u2, u3]);
    if v :| Cat(t, u1) == Some(v) {
      CatAllNext(v, u2, [u3]);
      if w :| Cat(v, u2) == Some(w) {
        CatAllNext(w, u3, []);
      }
    }
  }

  /** Channel `c` of the block of slice (i, j), after those of the other slices: 2 * j + i. */
  function InBlock(i: nat, j: nat, C: nat, c: nat): nat {
    if j == 0 then if i == 0 then c else C + c else if i == 0 then 2 * C + c else 3 * C + c
  }

  /** The elements of `t` are those of `r`, `shift` channels on. */
  ghost predicate Embeds(t: Tensor, r: Tensor, shift: nat) {
    forall b, c, y, z, e {:trigger Elem(t, b, c, y, z, e)} :: Elem(t, b, c, y, z, e) ==> Elem(r, b, shift + c, y, z, e)
  }

  lemma EmbedsOn(t: Tensor, r: Tensor, q: Tensor, a: nat, b: nat)
    requires Embeds(t, r, a) && Embeds(r, q, b)
    ensures Embeds(t, q, a + b)
  {}

  lemma CatOf(t: Tensor, u: Tensor, B: nat, C: nat, D: nat, H: nat, W: nat) returns (r: Tensor)
    requires t.Valid() && u.Valid() && t.shape == [B, C, H, W] && u.shape == [B, D, H, W]
    ensures Cat(t, u) == Some(r) && r.Valid() && r.shape == [B, C + D, H, W]
    ensures Embeds(t, r, 0) && Embeds(u, r, C)
  {
    r := Cat(t, u).value;
    forall b: nat, c: nat, y: nat, z: nat, e: real | Elem(t, b, c, y, z, e)
      ensures Elem(r, b, c, y, z, e)
    {
      CatLeft(t, u, r, b, c, y, z, e);
    }
    forall b: nat, c: nat, y: nat, z: nat, e: real | Elem(u, b, c, y, z, e)
      ensures Elem(r, b, C + c, y, z, e)
    {
      CatRight(t, u, r, b, c, y, z, e);
    }
  }

  /** Block `k` of four stacked tensors is the `k`-th. */
  lemma FourOf(t0: Tensor, t1: Tensor, t2: Tensor, t3: Tensor, B: nat, C: nat, H: nat, W: nat) returns (r: Tensor)
    requires t0.Valid() && t1.Valid() && t2.Valid() && t3.Valid()
    requires t0.shape == t1.shape == t2.shape == t3.shape == [B, C, H, W]
    ensures CatAll(t0, [t1, t2, t3]) == Some(r) && r.Valid() && r.shape == [B, C * 4, H, W]
    ensures Embeds(t0, r, 0) && Embeds(t1, r, C) && Embeds(t2, r, 2 * C) && Embeds(t3, r, 3 * C)
  {
    var v := CatOf(t0, t1, B, C, C, H, W);
    var w := CatOf(v, t2, B, 2 * C, C, H, W);
    r := CatOf(w, t3, B, 3 * C, C, H, W);
    Four(t0, t1, t2, t3);
    Chained(t0, t1, t2, v, w, r, C);
  }

  lemma Chained(t0: Tensor, t1: Tensor, t2: Tensor, v: Tensor, w: Tensor, r: Tensor, C: nat)
    requires Embeds(t0, v, 0) && Embeds(t1, v, C) && Embeds(v, w, 0) && Embeds(t2, w, 2 * C) && Embeds(w, r, 0)
    ensures Embeds(t0, r, 0) && Embeds(t1, r, C) && Embeds(t2, r, 2 * C)
  {
    EmbedsOn(v, w, r, 0, 0);
    EmbedsOn(t0, v, r, 0, 0);
    EmbedsOn(t1, v, r, C, 0);
    EmbedsOn(t2, w, r, 2 * C, 0);
  }

  /** `t` holds the pixels of `x` at rows `i` and columns `j` of the blocks. */
  ghost predicate IsSlice(x: Tensor, t: Tensor, i: nat, j: nat) {
    forall b, c, y, z, e {:trigger Elem(t, b, c, y, z, e)} ::
      Elem(x, b, c, Spread(y, 2, i), Spread(z, 2, j), e) ==> Elem(t, b, c, y, z, e)
  }

  lemma SliceOf(x: Tensor, i: nat, j: nat) returns (t: Tensor)
    requires Is4D(x) && x.shape[2] % 2 == 0 && x.shape[3] % 2 == 0 && i < 2 && j < 2
    ensures t == Slice(x, i, j) && IsSlice(x, t, i, j)
    ensures t.Valid() && t.shape == [x.shape[0], x.shape[1], x.shape[2] / 2, x.shape[3] / 2]
  {
    t := Slice(x, i, j);
    forall b: nat, c: nat, y: nat, z: nat, e: real | Elem(x, b, c, Spread(y, 2, i), Spread(z, 2, j), e)
      ensures Elem(t, b, c, y, z, e)
    {
      SpreadInside(x, b, c, y, z, i, j, e);
      SliceAt(x, i, j, b, c, y, z, e);
    }
  }

  lemma SpreadInside(x: Tensor, b: nat, c: nat, y: nat, z: nat, i: nat, j: nat, e: real)
    requires Is4D(x) && i < 2 && j < 2 && Elem(x, b, c, Spread(y, 2, i), Spread(z, 2, j), e)
    ensures Inside([b, c, y, z], SliceShape(x, i, j))
  {
    var idx := [b, c, Spread(y, 2, i), Spread(z, 2, j)];
    assert idx[0] < x.shape[0] && idx[1] < x.shape[1] && idx[2] < x.shape[2] && idx[3] < x.shape[3];
  }

  /** The slices of an even-sized input and what they make. */
  lemma FocusOf(x: Tensor) returns (t00: Tensor, t10: Tensor, t01: Tensor, t11: Tensor, r: Tensor)
    requires Is4D(x) && x.shape[2] % 2 == 0 && x.shape[3] % 2 == 0
    ensures Focus(x) == Some(r) && r.Valid() && r.shape == [x.shape[0], x.shape[1] * 4, x.shape[2] / 2, x.shape[3] / 2]
    ensures IsSlice(x, t00, 0, 0) && IsSlice(x, t10, 1, 0) && IsSlice(x, t01, 0, 1) && IsSlice(x, t11, 1, 1)
    ensures Embeds(t00, r, 0) && Embeds(t10, r, x.shape[1]) && Embeds(t01, r, 2 * x.shape[1])
        && Embeds(t11, r, 3 * x.shape[1])
  {
    t00 := SliceOf(x, 0, 0);
    t10 := SliceOf(x, 1, 0);
    t01 := SliceOf(x, 0, 1);
    t11 := SliceOf(x, 1, 1);
    r := FourOf(t00, t10, t01, t11, x.shape[0], x.shape[1], x.shape[2] / 2, x.shape[3] / 2);
  }

  lemma PlacedAt(x: Tensor, t00: Tensor, t10: Tensor, t01: Tensor, t11: Tensor, r: Tensor,
                C: nat, b: nat, c: nat, y: nat, z: nat, i: nat, j: nat, e: real)
    requires i < 2 && j < 2
    requires IsSlice(x, t00, 0, 0) && IsSlice(x, t10, 1, 0) && IsSlice(x, t01, 0, 1) && IsSlice(x, t11, 1, 1)
    requires Embeds(t00, r, 0) && Embeds(t10, r, C) && Embeds(t01, r, 2 * C) && Embeds(t11, r, 3 * C)
    requires Elem(x, b, c, Spread(y, 2, i), Spread(z, 2, j), e)
    ensures Elem(r, b, InBlock(i, j, C, c), y, z, e)
  {
    var t := if j == 0 then if i == 0 then t00 else t10 else if i == 0 then t01 else t11;
    var shift := if j == 0 then if i == 0 then 0 else C else if i == 0 then 2 * C else 3 * C;
    Sliced(x, t, b, c, y, z, i, j, e);
    Embedded(t, r, shift, b, c, y, z, e);
  }

  lemma Sliced(x: Tensor, t: Tensor, b: nat, c: nat, y: nat, z: nat, i: nat, j: nat, e: real)
    requires IsSlice(x, t, i, j) && Elem(x, b, c, Spread(y, 2, i), Spread(z, 2, j), e)
    ensures Elem(t, b, c, y, z, e)
  {}

  lemma Embedded(t: Tensor, r: Tensor, shift: nat, b: nat, c: nat, y: nat, z: nat, e: real)
    requires Embeds(t, r, shift) && Elem(t, b, c, y, z, e)
    ensures Elem(r, b, shift + c, y, z, e)
  {}

  /** The slice with rows `i` and columns `j` becomes channel block `2 * j + i`: where every pixel goes. */
  lemma FocusAt(x: Tensor, b: nat, c: nat, y: nat, z: nat, i: nat, j: nat)
    requires Is4D(x) && x.shape[2] % 2 == 0 && x.shape[3] % 2 == 0 && i < 2 && j < 2
    requires Inside([b, c, Spread(y, 2, i), Spread(z, 2, j)], x.shape)
    ensures var e := At(x, [b, c, Spread(y, 2, i), Spread(z, 2, j)]);
            Focus(x).Some? && Elem(Focus(x).value, b, InBlock(i, j, x.shape[1], c), y, z, e)
  {
    var e := At(x, [b, c, Spread(y, 2, i), Spread(z, 2, j)]);
    var t00, t10, t01, t11, r := FocusOf(x);
    PlacedAt(x, t00, t10, t01, t11, r, x.shape[1], b, c, y, z, i, j, e);
  }

  // ---- Against the contraction ----

  function Swapped(ch: nat, C: nat): nat {
    if C <= ch < 2 * C then ch + C else if 2 * C <= ch < 3 * C then ch - C else ch
  }

  /** `t`, of 4 * C channels, with its two middle channel blocks swapped. */
  function SwapMiddle(t: Tensor, C: nat): (r: Tensor)
    requires Is4D(t) && t.shape[1] == C * 4
    ensures Is4D(r) && r.shape == t.shape
  {
    FromIndex(t.shape, (idx: seq<nat>) requires Inside(idx, t.shape) =>
      At(t, [idx[0], Swapped(idx[1], C), idx[2], idx[3]]))
  }

  lemma SwapMiddleAt(t: Tensor, C: nat, b: nat, ch: nat, y: nat, z: nat, e: real)
    requires Is4D(t) && t.shape[1] == C * 4 && ch < C * 4 && Elem(t, b, Swapped(ch, C), y, z, e)
    ensures Elem(SwapMiddle(t, C), b, ch, y, z, e)
  {
    FromIndexAt(t.shape, (idx: seq<nat>) requires Inside(idx, t.shape) =>
      At(t, [idx[0], Swapped(idx[1], C), idx[2], idx[3]]), [b, ch, y, z]);
  }

  /** Every channel below `4 * C` is channel `c` of a block. */
  lemma Blocks(ch: nat, C: nat) returns (i: nat, j: nat, c: nat)
    requires ch < C * 4
    ensures i < 2 && j < 2 && c < C && ch == InBlock(i, j, C, c) && Swapped(ch, C) == InBlock(j, i, C, c)
  {
    if ch < C {
      i, j, c := 0, 0, ch;
    } else if ch < 2 * C {
      i, j, c := 1, 0, ch - C;
    } else if ch < 3 * C {
      i, j, c := 0, 1, ch - 2 * C;
    } else {
      i, j, c := 1, 1, ch - 3 * C;
    }
  }

  lemma FocusElement(x: Tensor, b: nat, ch: nat, y: nat, z: nat) returns (e: real)
    requires Is4D(x) && x.shape[2] % 2 == 0 && x.shape[3] % 2 == 0
    requires b < x.shape[0] && ch < x.shape[1] * 4 && y < x.shape[2] / 2 && z < x.shape[3] / 2
    ensures Focus(x).Some? && Elem(Focus(x).value, b, ch, y, z, e)
    ensures Contract(x, 2).Some? && Elem(Contract(x, 2).value, b, Swapped(ch, x.shape[1]), y, z, e)
  {
    var B, C, H, W := x.shape[0], x.shape[1], x.shape[2] / 2, x.shape[3] / 2;
    var i, j, c := Blocks(ch, C);
    ContractAt(x, B, C, H, W, 2, b, c, y, z, i, j);
    e := At(x, [b, c, Spread(y, 2, i), Spread(z, 2, j)]);
    assert Deep(i, j, 2, C, c) == InBlock(j, i, C, c);
    FocusAt(x, b, c, y, z, i, j);
  }

  /** Focusing is contracting by 2, up to the order of two channel blocks. */
  lemma FocusIsContract(x: Tensor)
    requires Is4D(x) && x.shape[2] % 2 == 0 && x.shape[3] % 2 == 0
    ensures Contract(x, 2).Some? && Contract(x, 2).value.shape[1] == x.shape[1] * 4
    ensures Focus(x) == Some(SwapMiddle(Contract(x, 2).value, x.shape[1]))
  {
    ContractIs(x, x.shape[0], x.shape[1], x.shape[2] / 2, x.shape[3] / 2, 2);
    var t00, t10, t01, t11, r := FocusOf(x);
    var t := SwapMiddle(Contract(x, 2).value, x.shape[1]);
    forall idx | Inside(idx, r.shape)
      ensures At(r, idx) == At(t, idx)
    {
      SameElement(x, r, Contract(x, 2).value, idx);
    }
    SameTensor(r, t);
  }

  lemma SameElement(x: Tensor, f: Tensor, k: Tensor, idx: seq<nat>)
    requires Is4D(x) && x.shape[2] % 2 == 0 && x.shape[3] % 2 == 0 && Is4D(f) && Is4D(k)
    requires Focus(x) == Some(f) && Contract(x, 2) == Some(k) && k.shape[1] == x.shape[1] * 4
    requires f.shape == k.shape == [x.shape[0], x.shape[1] * 4, x.shape[2] / 2, x.shape[3] / 2] && Inside(idx, f.shape)
    ensures At(f, idx) == At(SwapMiddle(k, x.shape[1]), idx)
  {
    var b, ch, y, z := idx[0], idx[1], idx[2], idx[3];
    assert idx == [b, ch, y, z];
    var e := FocusElement(x, b, ch, y, z);
    SwapMiddleAt(k, x.shape[1], b, ch, y, z, e);
  }

  /** Concatenation succeeds exactly for even heights and widths. */
  lemma FocusWorksIff(x: Tensor)
    requires Is4D(x)
    ensures Focus(x).Some? <==> x.shape[2] % 2 == 0 && x.shape[3] % 2 == 0
  {
    if x.shape[2] % 2 == 0 && x.shape[3] % 2 == 0 {
      var t00, t10, t01, t11, r := FocusOf(x);
    } else {
      FocusFails(Slice(x, 0, 0), Slice(x, 1, 0), Slice(x, 0, 1), Slice(x, 1, 1));
    }
  }

  lemma FocusFails(t0: Tensor, t1: Tensor, t2: Tensor, t3: Tensor)
    requires Is4D(t0) && Is4D(t1) && Is4D(t2) && Is4D(t3)
    requires t0.shape[2] != t1.shape[2] || t0.shape[3] != t2.shape[3]
    ensures CatAll(t0, [t1, t2, t3]).None?
  {
    Four(t0, t1, t2, t3);
  }
}
