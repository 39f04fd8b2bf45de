/** Spatial pyramid pooling (yolov5/models/common.py, `SPP` and `SPPF`): stride-1 max pooling with
    `k // 2` padding on every side, which never wins a maximum. */
module Pooling {
  import opened Messages
  import opened Numbers

  /** One channel, row by row. */
  type Grid = seq<seq<real>>

  predicate IsImage(x: Grid) {
    |x| > 0 && |x[0]| > 0 && forall i :: 0 <= i < |x| ==> |x[i]| == |x[0]|
  }

  /** First and last position of a window at `i` that the padding does not cover. */
  function First(i: nat, k: nat): nat { if i < k / 2 then 0 else i - k / 2 }

  function Last(i: nat, k: nat, n: nat): nat
    requires k > 0 && n > 0
  {
    var last := i - k / 2 + k - 1;
    if last >= n then n - 1 else last
  }

  function RowMax(row: seq<real>, c0: nat, c1: nat): real
    requires c0 <= c1 < |row|
    decreases c1 - c0
  {
    if c0 == c1 then row[c0] else Max(RowMax(row, c0, c1 - 1), row[c1])
  }

  function AreaMax(x: Grid, r0: nat, r1: nat, c0: nat, c1: nat): real
    requires r0 <= r1 < |x| && c0 <= c1 && forall i :: 0 <= i < |x| ==> c1 < |x[i]|
    decreases r1 - r0
  {
    if r0 == r1 then RowMax(x[r0], c0, c1) else Max(AreaMax(x, r0, r1 - 1, c0, c1), RowMax(x[r1], c0, c1))
  }

  /** `nn.MaxPool2d(kernel_size=k, stride=1, padding=k // 2)`; an even kernel yields one row and column more. */
  function Pool(x: Grid, k: nat): (y: Grid)
    requires IsImage(x) && k > 0
    ensures IsImage(y) && |y| == |x| + 1 - k % 2 && |y[0]| == |x[0]| + 1 - k % 2
  {
    var h, w := |x|, |x[0]|;
    var y := seq(h + 1 - k % 2, i requires 0 <= i < h + 1 - k % 2 =>
      seq(w + 1 - k % 2, j requires 0 <= j < w + 1 - k % 2 =>
        AreaMax(x, First(i, k), Last(i, k, h), First(j, k), Last(j, k, w))));
    assert |y[0]| == w + 1 - k % 2;
    y
  }

  /** `v` is the greatest value within rows r0..r1 and columns c0..c1. */
  ghost predicate Greatest(x: Grid, r0: int, r1: int, c0: int, c1: int, v: real)
    requires IsImage(x)
  {
    && (forall p, q :: 0 <= p < |x| && 0 <= q < |x[0]| && r0 <= p <= r1 && c0 <= q <= c1 ==> x[p][q] <= v)
    && (exists p, q :: 0 <= p < |x| && 0 <= q < |x[0]| && r0 <= p <= r1 && c0 <= q <= c1 && x[p][q] == v)
  }

  lemma {:induction false} RowMaxIs(row: seq<real>, c0: nat, c1: nat)
    requires c0 <= c1 < |row|
    ensures forall q :: c0 <= q <= c1 ==> row[q] <= RowMax(row, c0, c1)
    ensures exists q :: c0 <= q <= c1 && row[q] == RowMax(row, c0, c1)
    decreases c1 - c0
  {
    var v := row[c1];
    if c0 < c1 { RowMaxIs(row, c0, c1 - 1); }
    assert RowMax(row, c0, c1) == v || c0 < c1;
  }

  lemma {:induction false} AreaMaxIs(x: Grid, r0: nat, r1: nat, c0: nat, c1: nat)
    requires IsImage(x) && r0 <= r1 < |x| && c0 <= c1 < |x[0]|
    ensures Greatest(x, r0, r1, c0, c1, AreaMax(x, r0, r1, c0, c1))
    decreases r1 - r0
  {
    RowMaxIs(x[r1], c0, c1);
    if r0 < r1 { AreaMaxIs(x, r0, r1 - 1, c0, c1); }
  }

  /** `v` is the greatest value within `r` rows and columns of a position. */
  ghost predicate Around(x: Grid, i: int, j: int, r: int, v: real)
    requires IsImage(x)
  {
    Greatest(x, i - r, i + r, j - r, j + r, v)
  }

  /** An odd kernel takes the greatest value within `k / 2` of the position. */
  lemma PoolIs(x: Grid, k: nat, i: nat, j: nat)
    requires IsImage(x) && k % 2 == 1 && i < |x| && j < |x[0]|
    ensures Around(x, i, j, k / 2, Pool(x, k)[i][j])
  {
    var h, w := |x|, |x[0]|;
    AreaMaxIs(x, First(i, k), Last(i, k, h), First(j, k), Last(j, k, w));
    Widen(x, First(i, k), Last(i, k, h), First(j, k), Last(j, k, w), i, j, k / 2, Pool(x, k)[i][j]);
  }

  lemma Widen(x: Grid, r0: int, r1: int, c0: int, c1: int, i: int, j: int, r: nat, v: real)
    requires IsImage(x) && Greatest(x, r0, r1, c0, c1, v)
    requires r0 == Clamp(i - r, 0, |x| - 1) && r1 == Clamp(i + r, 0, |x| - 1) && 0 <= i < |x|
    requires c0 == Clamp(j - r, 0, |x[0]| - 1) && c1 == Clamp(j + r, 0, |x[0]| - 1) && 0 <= j < |x[0]|
    ensures Around(x, i, j, r, v)
  {
    var p, q :| 0 <= p < |x| && 0 <= q < |x[0]| && r0 <= p <= r1 && c0 <= q <= c1 && x[p][q] == v;
    assert i - r <= p <= i + r && j - r <= q <= j + r;
  }

  function Clamp(p: int, lo: int, hi: int): int {
    if p < lo then lo else if p > hi then hi else p
  }

  /** `y` is `x` with every value replaced by the greatest within `r` rows and columns. */
  ghost predicate IsRadius(x: Grid, y: Grid, r: nat) {
    && IsImage(x) && IsImage(y) && |x| == |y| && |x[0]| == |y[0]|
    && forall i, j {:trigger Around(x, i, j, r, y[i][j])} :: 0 <= i < |x| && 0 <= j < |x[0]| ==>
        Around(x, i, j, r, y[i][j])
  }

  lemma PoolHasRadius(x: Grid, k: nat)
    requires IsImage(x) && k % 2 == 1
    ensures IsRadius(x, Pool(x, k), k / 2)
  {
    var y := Pool(x, k);
    forall i, j | 0 <= i < |x| && 0 <= j < |x[0]|
      ensures Around(x, i, j, k / 2, y[i][j])
    {
      PoolIs(x, k, i, j);
    }
  }

  lemma RadiiAddAt(x: Grid, y: Grid, i: nat, j: nat, a: nat, b: nat, v: real)
    requires IsRadius(x, y, a) && i < |x| && j < |x[0]| && Around(y, i, j, b, v)
    ensures Around(x, i, j, (a + b), v)
  {
    forall p, q | 0 <= p < |x| && 0 <= q < |x[0]| && i - (a + b) <= p <= i + (a + b) && j - (a + b) <= q <= j + (a + b)
      ensures x[p][q] <= v
    {
      var p', q' := Clamp(p, i - b, i + b), Clamp(q, j - b, j + b);
      assert Around(x, p', q', a, y[p'][q']);
    }
    var p, q :| 0 <= p < |y| && 0 <= q < |y[0]| && i - b <= p <= i + b && j - b <= q <= j + b && y[p][q] == v;
    assert Around(x, p, q, a, y[p][q]);
  }

  /** Radii add: the greatest of greatest values is the greatest over the wider window. */
  lemma RadiiAdd(x: Grid, y: Grid, z: Grid, a: nat, b: nat)
    requires IsRadius(x, y, a) && IsRadius(y, z, b)
    ensures IsRadius(x, z, a + b)
  {
    forall i, j | 0 <= i < |x| && 0 <= j < |x[0]|
      ensures Around(x, i, j, (a + b), z[i][j])
    {
      assert Around(y, i, j, b, z[i][j]);
      RadiiAddAt(x, y, i, j, a, b, z[i][j]);
    }
  }

  lemma OneGreatest(x: Grid, i: int, j: int, r: int, v: real, v': real)
    requires IsImage(x) && Around(x, i, j, r, v) && Around(x, i, j, r, v')
    ensures v == v'
  {}

  lemma OneRadius(x: Grid, y: Grid, z: Grid, r: nat)
    requires IsRadius(x, y, r) && IsRadius(x, z, r)
    ensures y == z
  {
    forall i, j | 0 <= i < |x| && 0 <= j < |x[0]|
      ensures y[i][j] == z[i][j]
    {
      OneGreatest(x, i, j, r, y[i][j], z[i][j]);
    }
    SameGrid(y, z);
  }

  lemma SameGrid(y: Grid, z: Grid)
    requires IsImage(y) && IsImage(z) && |y| == |z| && |y[0]| == |z[0]|
    requires forall i, j :: 0 <= i < |y| && 0 <= j < |y[0]| ==> y[i][j] == z[i][j]
    ensures y == z
  {
    forall i | 0 <= i < |y|
      ensures y[i] == z[i]
    {
      assert forall j :: 0 <= j < |y[i]| ==> y[i][j] == z[i][j];
    }
  }

  /** Two odd poolings in a row are one of kernel k + l - 1. */
  lemma PoolsCompose(x: Grid, k: nat, l: nat)
    requires IsImage(x) && k % 2 == 1 && l % 2 == 1
    ensures Pool(Pool(x, k), l) == Pool(x, k + l - 1)
  {
    OfRadii(x, k / 2, l / 2);
    assert k == 2 * (k / 2) + 1 && l == 2 * (l / 2) + 1;
  }

  lemma OfRadii(x: Grid, a: nat, b: nat)
    requires IsImage(x)
    ensures Pool(Pool(x, 2 * a + 1), 2 * b + 1) == Pool(x, 2 * (a + b) + 1)
  {
    var y := Pool(x, 2 * a + 1);
    OddRadius(x, a);
    OddRadius(y, b);
    OddRadius(x, a + b);
    OnlySum(x, y, Pool(y, 2 * b + 1), Pool(x, 2 * (a + b) + 1), a, b);
  }

  lemma OddRadius(x: Grid, r: nat)
    requires IsImage(x)
    ensures IsRadius(x, Pool(x, 2 * r + 1), r)
  {
    PoolHasRadius(x, 2 * r + 1);
  }

  lemma OnlySum(x: Grid, y: Grid, z: Grid, z': Grid, a: nat, b: nat)
    requires IsRadius(x, y, a) && IsRadius(y, z, b) && IsRadius(x, z', a + b)
    ensures z == z'
  {
    RadiiAdd(x, y, z, a, b);
    OneRadius(x, z, z', a + b);
  }

  function Repeated(x: Grid, k: nat, n: nat): (y: Grid)
    requires IsImage(x) && k > 0
    ensures IsImage(y)
  {
    if n == 0 then x else Pool(Repeated(x, k, n - 1), k)
  }

  function Product(n: nat, m: nat): nat { n * m }

  lemma ZeroRadius(x: Grid)
    requires IsImage(x)
    ensures IsRadius(x, x, 0)
  {}

  lemma OneMore(x: Grid, y: Grid, m: nat, r: nat)
    requires IsRadius(x, y, m)
    ensures IsRadius(x, Pool(y, 2 * r + 1), m + r)
  {
    OddRadius(y, r);
    RadiiAdd(x, y, Pool(y, 2 * r + 1), m, r);
  }

  lemma {:induction false} RepeatedRadius(x: Grid, r: nat, n: nat)
    requires IsImage(x)
    ensures IsRadius(x, Repeated(x, 2 * r + 1, n), Product(n, r))
  {
    if n == 0 {
      ZeroRadius(x);
    } else {
      RepeatedRadius(x, r, n - 1);
      OneMore(x, Repeated(x, 2 * r + 1, n - 1), Product(n - 1, r), r);
      assert Product(n, r) == Product(n - 1, r) + r;
    }
  }

  /** `n` poolings of an odd kernel `k` are one of kernel n * (k - 1) + 1. */
  lemma PoolsAreOne(x: Grid, k: nat, n: nat)
    requires IsImage(x) && k % 2 == 1
    ensures Repeated(x, k, n) == Pool(x, Product(n, k - 1) + 1)
  {
    var r := k / 2;
    assert k == 2 * r + 1 && Product(n, k - 1) == 2 * Product(n, r);
    RepeatedRadius(x, r, n);
    OddRadius(x, Product(n, r));
    OneRadius(x, Repeated(x, k, n), Pool(x, 2 * Product(n, r) + 1), Product(n, r));
  }

  // ---- The layers: one image, channel by channel ----

  type Tensor = seq<Grid>

  predicate IsTensor(x: Tensor) { forall c :: 0 <= c < |x| ==> IsImage(x[c]) }

  /** All channels of one size, as concatenation demands. */
  predicate OneSize(x: Tensor) {
    forall c, d :: 0 <= c < |x| && 0 <= d < |x| ==>
      |x[c]| == |x[d]| && (|x[c]| > 0 ==> |x[c][0]| == |x[d][0]|)
  }

  function PoolAll(x: Tensor, k: nat): (y: Tensor)
    requires IsTensor(x) && k > 0
    ensures IsTensor(y) && |y| == |x| && forall c :: 0 <= c < |x| ==> y[c] == Pool(x[c], k)
  {
    seq(|x|, c requires 0 <= c < |x| => Pool(x[c], k))
  }

  /** `torch.cat(..., 1)`: fails when sizes differ. */
  function Cat(x: Tensor): Option<Tensor> {
    if OneSize(x) then Some(x) else None
  }

  /** Concatenation succeeds exactly when all channels have one height and one width, and gives them in order. */
  lemma CatWorksIff(x: Tensor)
    requires IsTensor(x)
    ensures Cat(x).Some? <==> exists h, w :: AllSized(x, h, w)
    ensures Cat(x).Some? ==> Cat(x).value == x
  {
    if Cat(x).Some? {
      assert x != [] ==> AllSized(x, |x[0]|, |x[0][0]|);
      assert x == [] ==> AllSized(x, 0, 0);
    }
  }

  /** Every channel has this height and width. */
  predicate AllSized(x: Tensor, h: nat, w: nat)
    requires IsTensor(x)
  {
    forall c :: 0 <= c < |x| ==> |x[c]| == h && |x[c][0]| == w
  }

  /** `x` and its poolings by each kernel, in order. */
  function PoolEach(x: Tensor, ks: seq<nat>): Tensor
    requires IsTensor(x) && forall i :: 0 <= i < |ks| ==> ks[i] > 0
  {
    if ks == [] then x else PoolEach(x, ks[..|ks| - 1]) + PoolAll(x, ks[|ks| - 1])
  }

  /** What `SPP` passes to its last convolution, given its first one's output. */
  function Spp(x: Tensor, ks: seq<nat>): Option<Tensor>
    requires IsTensor(x) && forall i :: 0 <= i < |ks| ==> ks[i] > 0
  {
    Cat(PoolEach(x, ks))
  }

  /** What `SPPF` passes to its last convolution, given its first one's output. */
  function Sppf(x: Tensor, k: nat): Option<Tensor>
    requires IsTensor(x) && k > 0
  {
    var y1 := PoolAll(x, k);
    var y2 := PoolAll(y1, k);
    Cat(x + y1 + y2 + PoolAll(y2, k))
  }

  lemma PoolsAllCompose(x: Tensor, k: nat, l: nat)
    requires IsTensor(x) && k % 2 == 1 && l % 2 == 1
    ensures PoolAll(PoolAll(x, k), l) == PoolAll(x, k + l - 1)
  {
    forall c | 0 <= c < |x|
      ensures PoolAll(PoolAll(x, k), l)[c] == PoolAll(x, k + l - 1)[c]
    {
      PoolsCompose(x[c], k, l);
    }
  }

  /** The fast layer with an odd kernel is the plain one with kernels k, 2k - 1 and 3k - 2. */
  lemma SppfIsSpp(x: Tensor, k: nat)
    requires IsTensor(x) && k % 2 == 1
    ensures Sppf(x, k) == Spp(x, [k, 2 * k - 1, 3 * k - 2])
  {
    var k2, k3 := 2 * k - 1, 3 * k - 2;
    Widened(x, k, k2, k3);
    ThreePools(x, k, k2, k3);
    SameCat(x, k, PoolAll(x, k2), PoolAll(x, k3));
  }

  lemma SameCat(x: Tensor, k: nat, y2: Tensor, y3: Tensor)
    requires IsTensor(x) && IsTensor(y2) && k > 0 && PoolAll(PoolAll(x, k), k) == y2 && PoolAll(y2, k) == y3
    ensures Sppf(x, k) == Cat(x + PoolAll(x, k) + y2 + y3)
  {
  }

  lemma Widened(x: Tensor, k: nat, k2: nat, k3: nat)
    requires IsTensor(x) && k % 2 == 1 && k2 == k + k - 1 && k3 == k2 + k - 1
    ensures PoolAll(PoolAll(x, k), k) == PoolAll(x, k2) && PoolAll(PoolAll(x, k2), k) == PoolAll(x, k3)
  {
    PoolsAllCompose(x, k, k);
    PoolsAllCompose(x, k2, k);
  }

  lemma ThreePools(x: Tensor, k: nat, k2: nat, k3: nat)
    requires IsTensor(x) && k > 0 && k2 > 0 && k3 > 0
    ensures PoolEach(x, [k, k2, k3]) == x + PoolAll(x, k) + PoolAll(x, k2) + PoolAll(x, k3)
  {
    assert [k, k2, k3][..2] == [k, k2] && [k, k2][..1] == [k] && [k][..0] == [];
    assert PoolEach(x, []) == x && PoolEach(x, [k]) == x + PoolAll(x, k);
  }

  /** With the layers' defaults. */
  lemma DefaultSppfIsSpp(x: Tensor)
    requires IsTensor(x)
    ensures Sppf(x, 5) == Spp(x, [5, 9, 13])
  {
    SppfIsSpp(x, 5);
  }

  /** For channels of one size, the fast layer's concatenation succeeds exactly for odd kernels. */
  lemma SppfWorksIffOdd(x: Tensor, k: nat, h: nat, w: nat)
    requires IsTensor(x) && x != [] && k > 0 && AllSized(x, h, w)
    ensures Sppf(x, k).Some? <==> k % 2 == 1
  {
    var y1 := PoolAll(x, k);
    var y2 := PoolAll(y1, k);
    var y3 := PoolAll(y2, k);
    var all := x + y1 + y2 + y3;
    var n := |x|;
    if k % 2 == 1 {
      forall c | 0 <= c < |all|
        ensures |all[c]| == |x[0]| && |all[c][0]| == |x[0][0]|
      {
        assert all[c] == if c < n then x[c] else if c < 2 * n then y1[c - n] else if c < 3 * n then y2[c - 2 * n]
            else y3[c - 3 * n];
      }
    } else {
      assert all[0] == x[0] && all[n] == y1[0];
      assert |all[n]| == |all[0]| + 1;
    }
  }
}
