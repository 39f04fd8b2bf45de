/** Folding batch normalisation into convolutions (yolov5/utils/torch_utils.py `fuse_conv_and_bn`,
    yolov5/models/yolo.py `fuse`, yolov5/models/common.py `Conv`), over exact reals. */
module ConvFusion {
  import opened Messages
  import opened Numbers
  import Tensors

  // ---- Vectors and matrices ----

  function Dot(a: seq<real>, b: seq<real>): real
    requires |a| == |b|
  {
    if a == [] then 0.0 else Dot(a[..|a| - 1], b[..|b| - 1]) + a[|a| - 1] * b[|b| - 1]
  }

  type Matrix = seq<seq<real>>

  predicate Sized(m: Matrix, rows: nat, cols: nat) {
    |m| == rows && forall i :: 0 <= i < rows ==> |m[i]| == cols
  }

  function Column(m: Matrix, cols: nat, j: nat): (c: seq<real>)
    requires Sized(m, |m|, cols) && j < cols
    ensures |c| == |m|
  {
    seq(|m|, i requires 0 <= i < |m| => m[i][j])
  }

  /** `torch.mm`. */
  function Mul(a: Matrix, b: Matrix, n: nat, cols: nat): (m: Matrix)
    requires Sized(a, |a|, n) && Sized(b, n, cols)
    ensures Sized(m, |a|, cols)
  {
    seq(|a|, i requires 0 <= i < |a| => seq(cols, j requires 0 <= j < cols => Dot(a[i], Column(b, cols, j))))
  }

  /** `torch.diag`. */
  function Diag(d: seq<real>): (m: Matrix)
    ensures Sized(m, |d|, |d|)
  {
    seq(|d|, i requires 0 <= i < |d| => seq(|d|, j requires 0 <= j < |d| => if i == j then d[i] else 0.0))
  }

  function Scale(s: real, v: seq<real>): (r: seq<real>)
    ensures |r| == |v|
  {
    seq(|v|, i requires 0 <= i < |v| => Times(s, v[i]))
  }

  /** A vector with one non-zero entry picks that entry of the other. */
  lemma {:induction false} DotUnit(a: seq<real>, b: seq<real>, i: nat)
    requires |a| == |b| && forall k :: 0 <= k < |a| && k != i ==> a[k] == 0.0
    ensures Dot(a, b) == if i < |a| then a[i] * b[i] else 0.0
  {
    if a != [] {
      DotUnit(a[..|a| - 1], b[..|b| - 1], i);
    }
  }

  lemma {:induction false} DotScaled(s: real, a: seq<real>, b: seq<real>)
    requires |a| == |b|
    ensures Dot(Scale(s, a), b) == Times(s, Dot(a, b))
  {
    if a != [] {
      var n := |a| - 1;
      DotScaled(s, a[..n], b[..n]);
      assert Scale(s, a)[..n] == Scale(s, a[..n]);
      assert Dot(Scale(s, a), b) == Dot(Scale(s, a)[..n], b[..n]) + Scale(s, a)[n] * b[n];
      Distribute(s, Dot(a[..n], b[..n]), a[n], b[n]);
    }
  }

  lemma Distribute(s: real, d: real, x: real, y: real)
    ensures s * d + (s * x) * y == s * (d + x * y)
  {
    assert (s * x) * y == s * (x * y);
  }

  /** Multiplying by a diagonal matrix scales each row. */
  lemma DiagScales(d: seq<real>, m: Matrix, cols: nat, o: nat)
    requires Sized(m, |d|, cols) && o < |d|
    ensures Mul(Diag(d), m, |d|, cols)[o] == Scale(d[o], m[o])
  {
    forall j | 0 <= j < cols
      ensures Mul(Diag(d), m, |d|, cols)[o][j] == Scale(d[o], m[o])[j]
    {
      DotUnit(Diag(d)[o], Column(m, cols, j), o);
    }
  }

  // ---- Images ----

  /** Pixels by channel, row and column. */
  datatype Image = Image(h: nat, w: nat, px: seq<seq<seq<real>>>)

  function Render(c: nat, h: nat, w: nat, f: (nat, nat, nat) -> real): Image {
    var row := (o: nat, y: nat) => seq(w, z requires 0 <= z < w => f(o, y, z));
    Image(h, w, seq(c, o requires 0 <= o < c => seq(h, y requires 0 <= y < h => row(o, y))))
  }

  /** A pixel, zero outside the image. */
  function Read(x: Image, c: nat, y: int, z: int): real {
    if c < |x.px| && 0 <= y < |x.px[c]| && 0 <= z < |x.px[c][y]| then x.px[c][y][z] else 0.0
  }

  lemma RenderedAlike(c: nat, h: nat, w: nat, f: (nat, nat, nat) -> real, g: (nat, nat, nat) -> real)
    requires forall o, y, z :: 0 <= o < c && 0 <= y < h && 0 <= z < w ==> f(o, y, z) == g(o, y, z)
    ensures Render(c, h, w, f) == Render(c, h, w, g)
  {
    var a, b := Render(c, h, w, f), Render(c, h, w, g);
    forall o | 0 <= o < c
      ensures a.px[o] == b.px[o]
    {
      forall y | 0 <= y < h
        ensures a.px[o][y] == b.px[o][y]
      {
        assert forall z :: 0 <= z < w ==> a.px[o][y][z] == b.px[o][y][z];
      }
    }
  }

  lemma Rendered(c: nat, h: nat, w: nat, f: (nat, nat, nat) -> real, o: nat, y: nat, z: nat)
    requires o < c && y < h && z < w
    ensures Read(Render(c, h, w, f), o, y, z) == f(o, y, z)
  {}

  // ---- Layers ----

  datatype Geometry = Geometry(inC: nat, outC: nat, kh: nat, kw: nat, stride: nat, pad: nat, groups: nat) {
    predicate Valid() {
      inC > 0 && outC > 0 && kh > 0 && kw > 0 && stride > 0 && groups > 0 && inC % groups == 0 && outC % groups == 0
    }
  }

  /** A convolution; row `o` of `weight` is filter `o`, flattened by input channel, row, column. */
  datatype Conv2d = Conv2d(geo: Geometry, weight: Matrix, bias: Option<seq<real>>) {
    predicate Valid() {
      && geo.Valid() && Sized(weight, geo.outC, FilterSize(geo))
      && (bias.Some? ==> |bias.value| == geo.outC)
    }
  }

  function FilterSize(g: Geometry): nat
    requires g.groups > 0
  {
    g.inC / g.groups * g.kh * g.kw
  }

  /** Output height, or width. */
  function OutSize(n: nat, k: nat, stride: nat, pad: nat): nat
    requires stride > 0
  {
    if n + 2 * pad < k then 0 else (n + 2 * pad - k) / stride + 1
  }

  /** The first input channel of the group of filter `o`. */
  function FirstChannel(g: Geometry, o: nat): nat
    requires g.Valid()
  {
    assert g.outC == g.outC / g.groups * g.groups;
    var group, per := o / (g.outC / g.groups), g.inC / g.groups;
    group * per
  }

  /** What weight `q` of a filter is multiplied with. */
  function Seen(g: Geometry, x: Image, first: nat, y: int, z: int, q: nat): real
    requires g.Valid()
  {
    Read(x, first + q / g.kw / g.kh, y + q / g.kw % g.kh, z + q % g.kw)
  }

  /** What filter `o` sees at an output position, in the filter's order. */
  function Patch(g: Geometry, x: Image, o: nat, y: nat, z: nat): (p: seq<real>)
    requires g.Valid()
    ensures |p| == FilterSize(g)
  {
    seq(FilterSize(g), q requires 0 <= q < FilterSize(g) =>
      Seen(g, x, FirstChannel(g, o), y * g.stride - g.pad, z * g.stride - g.pad, q))
  }

  function BiasOf(c: Conv2d): (b: seq<real>)
    requires c.Valid()
    ensures |b| == c.geo.outC
  {
    if c.bias.None? then seq(c.geo.outC, _ => 0.0) else c.bias.value
  }

  function ConvPixel(c: Conv2d, x: Image, o: nat, y: nat, z: nat): real
    requires c.Valid() && o < c.geo.outC
  {
    Dot(c.weight[o], Patch(c.geo, x, o, y, z)) + BiasOf(c)[o]
  }

  function ConvPixels(c: Conv2d, x: Image): (nat, nat, nat) -> real
    requires c.Valid()
  {
    (o: nat, y: nat, z: nat) => if o < c.geo.outC then ConvPixel(c, x, o, y, z) else 0.0
  }

  function OutH(g: Geometry, x: Image): nat
    requires g.Valid()
  {
    OutSize(x.h, g.kh, g.stride, g.pad)
  }

  function OutW(g: Geometry, x: Image): nat
    requires g.Valid()
  {
    OutSize(x.w, g.kw, g.stride, g.pad)
  }

  function Convolve(c: Conv2d, x: Image): Image
    requires c.Valid()
  {
    Render(c.geo.outC, OutH(c.geo, x), OutW(c.geo, x), ConvPixels(c, x))
  }

  /** Output positions are those whose window lies in the padded image. */
  lemma OutSizeIs(n: nat, k: nat, stride: nat, pad: nat, y: nat)
    requires stride > 0
    ensures y < OutSize(n, k, stride, pad) <==> y * stride + k <= n + 2 * pad
  {
    if n + 2 * pad >= k {
      var room := n + 2 * pad - k;
      assert room == room / stride * stride + room % stride;
      if y <= room / stride {
        ScaleInt(y, room / stride, stride);
      } else {
        ScaleInt(room / stride + 1, y, stride);
      }
    }
  }

  /** Filters are split evenly over the groups, and so are input channels. */
  lemma FirstChannelIs(g: Geometry, o: nat, group: nat)
    requires g.Valid() && group * (g.outC / g.groups) <= o < (group + 1) * (g.outC / g.groups)
    ensures FirstChannel(g, o) == group * (g.inC / g.groups)
  {
    var per := g.outC / g.groups;
    Tensors.Quotient(group, o - group * per, per);
  }

  /** Weight `(i, p, q)` of a filter meets the pixel of its group's channel `i` that lies `p` rows and `q` columns
      into the window; outside of the image that is zero. */
  lemma PatchIs(g: Geometry, x: Image, o: nat, y: nat, z: nat, i: nat, p: nat, q: nat, n: nat)
    requires g.Valid() && i < g.inC / g.groups && p < g.kh && q < g.kw && n == (i * g.kh + p) * g.kw + q
    ensures n < FilterSize(g)
    ensures var c, row, col := FirstChannel(g, o) + i, y * g.stride - g.pad + p, z * g.stride - g.pad + q;
            Patch(g, x, o, y, z)[n] ==
            if c < |x.px| && 0 <= row < |x.px[c]| && 0 <= col < |x.px[c][row]| then x.px[c][row][col] else 0.0
  {
    Tensors.Quotient(i * g.kh + p, q, g.kw);
    Tensors.Quotient(i, p, g.kh);
    Tensors.InRange(i, g.inC / g.groups, p, g.kh);
    Tensors.InRange(i * g.kh + p, g.inC / g.groups * g.kh, q, g.kw);
    assert n / g.kw == i * g.kh + p;
  }

  /** A pixel of the convolution: the filter times what it meets, plus its bias if there is one. */
  lemma ConvolvedPixel(c: Conv2d, x: Image, o: nat, y: nat, z: nat)
    requires c.Valid() && o < c.geo.outC && y < OutH(c.geo, x) && z < OutW(c.geo, x)
    ensures var r := Convolve(c, x);
            && |r.px| == c.geo.outC && r.h == |r.px[o]| == OutSize(x.h, c.geo.kh, c.geo.stride, c.geo.pad)
            && r.w == |r.px[o][y]| == OutSize(x.w, c.geo.kw, c.geo.stride, c.geo.pad)
            && r.px[o][y][z] == Dot(c.weight[o], Patch(c.geo, x, o, y, z))
                                + if c.bias.Some? then c.bias.value[o] else 0.0
  {
    Rendered(c.geo.outC, OutH(c.geo, x), OutW(c.geo, x), ConvPixels(c, x), o, y, z);
  }

  /** Batch normalisation at inference; `eps` keeps the deviation positive. */
  datatype BatchNorm = BatchNorm(weight: seq<real>, bias: seq<real>, mean: seq<real>, variance: seq<real>, eps: real) {
    predicate Valid(n: nat) {
      && |weight| == |bias| == |mean| == |variance| == n && eps > 0.0
      && forall o :: 0 <= o < n ==> variance[o] >= 0.0
    }
  }

  /** The deviation of channel `o`. */
  function Deviation(bn: BatchNorm, sqrt: real -> real, o: nat): real
    requires o < |bn.variance|
  {
    sqrt(bn.variance[o] + bn.eps)
  }

  lemma DeviationPositive(bn: BatchNorm, sqrt: real -> real, n: nat, o: nat)
    requires bn.Valid(n) && IsSqrt(sqrt) && o < n
    ensures Deviation(bn, sqrt, o) > 0.0
  {
    assert bn.variance[o] + bn.eps > 0.0;
  }

  function NormPixel(bn: BatchNorm, sqrt: real -> real, o: nat, v: real): real
    requires o < |bn.weight| == |bn.bias| == |bn.mean| == |bn.variance| && Deviation(bn, sqrt, o) > 0.0
  {
    (v - bn.mean[o]) / Deviation(bn, sqrt, o) * bn.weight[o] + bn.bias[o]
  }

  ghost predicate Usable(bn: BatchNorm, sqrt: real -> real, n: nat) {
    bn.Valid(n) && IsSqrt(sqrt)
  }

  function NormPixels(bn: BatchNorm, sqrt: real -> real, n: nat, x: Image): (nat, nat, nat) -> real
    requires Usable(bn, sqrt, n)
  {
    (o: nat, y: nat, z: nat) =>
      if o < n then DeviationPositive(bn, sqrt, n, o); NormPixel(bn, sqrt, o, Read(x, o, y, z)) else 0.0
  }

  function Normalise(bn: BatchNorm, sqrt: real -> real, n: nat, x: Image): Image
    requires Usable(bn, sqrt, n)
  {
    Render(n, x.h, x.w, NormPixels(bn, sqrt, n, x))
  }

  // ---- fuse_conv_and_bn ----

  function Gains(bn: BatchNorm, sqrt: real -> real, n: nat): (s: seq<real>)
    requires Usable(bn, sqrt, n)
    ensures |s| == n
  {
    seq(n, o requires 0 <= o < n => DeviationPositive(bn, sqrt, n, o); bn.weight[o] / Deviation(bn, sqrt, o))
  }

  function Shifts(bn: BatchNorm, sqrt: real -> real, n: nat): (s: seq<real>)
    requires Usable(bn, sqrt, n)
    ensures |s| == n
  {
    seq(n, o requires 0 <= o < n =>
      DeviationPositive(bn, sqrt, n, o);
      bn.bias[o] - bn.weight[o] * bn.mean[o] / Deviation(bn, sqrt, o))
  }

  /** A vector as a column, and back. */
  function AsColumn(v: seq<real>): (m: Matrix)
    ensures Sized(m, |v|, 1)
  {
    seq(|v|, i requires 0 <= i < |v| => [v[i]])
  }

  function FromColumn(m: Matrix): (v: seq<real>)
    requires Sized(m, |m|, 1)
    ensures |v| == |m|
  {
    seq(|m|, i requires 0 <= i < |m| => m[i][0])
  }

  function Plus(a: seq<real>, b: seq<real>): (r: seq<real>)
    requires |a| == |b|
    ensures |r| == |a|
  {
    seq(|a|, i requires 0 <= i < |a| => a[i] + b[i])
  }

  function Fused(c: Conv2d, bn: BatchNorm, sqrt: real -> real): (f: Conv2d)
    requires c.Valid() && Usable(bn, sqrt, c.geo.outC)
    ensures f.Valid() && f.geo == c.geo && f.bias.Some?
  {
    var n := c.geo.outC;
    var wBn := Diag(Gains(bn, sqrt, n));
    var weight := Mul(wBn, c.weight, n, FilterSize(c.geo));
    var bias := Plus(FromColumn(Mul(wBn, AsColumn(BiasOf(c)), n, 1)), Shifts(bn, sqrt, n));
    Conv2d(c.geo, weight, Some(bias))
  }

  lemma FusedBias(c: Conv2d, bn: BatchNorm, sqrt: real -> real, o: nat)
    requires c.Valid() && Usable(bn, sqrt, c.geo.outC) && o < c.geo.outC
    ensures BiasOf(Fused(c, bn, sqrt))[o] ==
        Times(Gains(bn, sqrt, c.geo.outC)[o], BiasOf(c)[o]) + Shifts(bn, sqrt, c.geo.outC)[o]
  {
    DiagScales(Gains(bn, sqrt, c.geo.outC), AsColumn(BiasOf(c)), 1, o);
  }

  /** (g / d) v + (b - g m / d) is (v - m) / d * g + b. */
  lemma Folded(v: real, g: real, b: real, m: real, d: real)
    requires d > 0.0
    ensures (g / d) * v + (b - g * m / d) == (v - m) / d * g + b
  {
    var s := g / d;
    assert s * d == g;
    assert (v - m) / d * g == (v - m) * s;
    assert g * m / d == s * m;
  }

  lemma FusedRow(c: Conv2d, bn: BatchNorm, sqrt: real -> real, o: nat)
    requires c.Valid() && Usable(bn, sqrt, c.geo.outC) && o < c.geo.outC
    ensures Fused(c, bn, sqrt).weight[o] == Scale(Gains(bn, sqrt, c.geo.outC)[o], c.weight[o])
  {
    DiagScales(Gains(bn, sqrt, c.geo.outC), c.weight, FilterSize(c.geo), o);
  }

  lemma Collected(s: real, d: real, b: real, t: real, e: real, bias: real)
    requires e == Times(s, d) && bias == Times(s, b) + t
    ensures e + bias == Times(s, d + b) + t
  {
    Spread(s, d, b);
  }

  lemma ScaledUp(row: seq<real>, w: seq<real>, p: seq<real>, bias: real, s: real, b: real, t: real)
    requires |w| == |p| && row == Scale(s, w) && bias == Times(s, b) + t
    ensures Dot(row, p) + bias == Times(s, Dot(w, p) + b) + t
  {
    DotScaled(s, w, p);
    Collected(s, Dot(w, p), b, t, Dot(row, p), bias);
  }

  /** A fused pixel is the convolution's, scaled and shifted. */
  lemma FusedPixel(c: Conv2d, bn: BatchNorm, sqrt: real -> real, x: Image, o: nat, y: nat, z: nat)
    requires c.Valid() && Usable(bn, sqrt, c.geo.outC) && o < c.geo.outC
    ensures ConvPixel(Fused(c, bn, sqrt), x, o, y, z) ==
            Times(Gains(bn, sqrt, c.geo.outC)[o], ConvPixel(c, x, o, y, z)) + Shifts(bn, sqrt, c.geo.outC)[o]
  {
    var f := Fused(c, bn, sqrt);
    FusedRow(c, bn, sqrt, o);
    FusedBias(c, bn, sqrt, o);
    ScaledUp(f.weight[o], c.weight[o], Patch(c.geo, x, o, y, z), BiasOf(f)[o],
             Gains(bn, sqrt, c.geo.outC)[o], BiasOf(c)[o], Shifts(bn, sqrt, c.geo.outC)[o]);
  }

  lemma GainsAt(bn: BatchNorm, sqrt: real -> real, n: nat, o: nat, v: real)
    requires Usable(bn, sqrt, n) && o < n
    ensures Deviation(bn, sqrt, o) > 0.0
    ensures Times(Gains(bn, sqrt, n)[o], v) + Shifts(bn, sqrt, n)[o] == NormPixel(bn, sqrt, o, v)
  {
    DeviationPositive(bn, sqrt, n, o);
    Folded(v, bn.weight[o], bn.bias[o], bn.mean[o], Deviation(bn, sqrt, o));
  }

  lemma Spread(s: real, d: real, b: real)
    ensures Times(s, d + b) == Times(s, d) + Times(s, b)
  {}

  /** On every image, the fused convolution computes the convolution followed by the normalisation. */
  lemma FusionKeepsMeaning(c: Conv2d, bn: BatchNorm, sqrt: real -> real, x: Image)
    requires c.Valid() && Usable(bn, sqrt, c.geo.outC)
    ensures Convolve(Fused(c, bn, sqrt), x) == Normalise(bn, sqrt, c.geo.outC, Convolve(c, x))
  {
    var n, h, w := c.geo.outC, OutH(c.geo, x), OutW(c.geo, x);
    var f, g := ConvPixels(Fused(c, bn, sqrt), x), NormPixels(bn, sqrt, n, Convolve(c, x));
    forall o, y, z | 0 <= o < n && 0 <= y < h && 0 <= z < w
      ensures f(o, y, z) == g(o, y, z)
    {
      SamePixel(c, bn, sqrt, x, o, y, z);
    }
    RenderedAlike(n, h, w, f, g);
  }

  lemma SamePixel(c: Conv2d, bn: BatchNorm, sqrt: real -> real, x: Image, o: nat, y: nat, z: nat)
    requires c.Valid() && Usable(bn, sqrt, c.geo.outC) && o < c.geo.outC && y < OutH(c.geo, x) && z < OutW(c.geo, x)
    ensures ConvPixels(Fused(c, bn, sqrt), x)(o, y, z) == NormPixels(bn, sqrt, c.geo.outC, Convolve(c, x))(o, y, z)
  {
    Rendered(c.geo.outC, OutH(c.geo, x), OutW(c.geo, x), ConvPixels(c, x), o, y, z);
    FusedPixel(c, bn, sqrt, x, o, y, z);
    GainsAt(bn, sqrt, c.geo.outC, o, ConvPixel(c, x, o, y, z));
  }

  // ---- fuse: every convolution of a model, in place ----

  /** A `Conv` or `DWConv` module, or (`isConv` false) any other. */
  class Layer {
    const isConv: bool
    const act: Image -> Image
    var conv: Conv2d
    var bn: Option<BatchNorm>
    var fast: bool

    /** The unfused forward needs its normalisation. */
    ghost predicate Valid()
      reads this
    {
      && conv.Valid() && (fast || bn.Some?)
      && (bn.Some? ==> !fast && bn.value.Valid(conv.geo.outC))
    }

    function Forward(x: Image, sqrt: real -> real): Image
      reads this
      requires Valid() && IsSqrt(sqrt)
    {
      if fast then act(Convolve(conv, x))
      else act(Normalise(bn.value, sqrt, conv.geo.outC, Convolve(conv, x)))
    }

    constructor (isConv: bool, act: Image -> Image, conv: Conv2d, bn: BatchNorm)
      requires conv.Valid() && bn.Valid(conv.geo.outC)
      ensures Valid() && !fast && this.isConv == isConv
    {
      this.isConv, this.act, this.conv, this.bn, this.fast := isConv, act, conv, Some(bn), false;
    }

    method FuseOne(sqrt: real -> real)
      requires Valid() && IsSqrt(sqrt) && bn.Some?
      modifies this
      ensures Valid() && fast && bn.None?
      ensures conv == Fused(old(conv), old(bn.value), sqrt)
      ensures forall x :: Forward(x, sqrt) == old(Forward(x, sqrt))
    {
      ghost var c, b := conv, bn.value;
      forall x
        ensures Convolve(Fused(c, b, sqrt), x) == Normalise(b, sqrt, c.geo.outC, Convolve(c, x))
      {
        FusionKeepsMeaning(c, b, sqrt, x);
      }
      conv := Fused(conv, bn.value, sqrt);
      bn := None;
      fast := true;
    }
  }

  /** Replaces every convolution that still has a normalisation.  No module computes anything else afterwards. */
  method Fuse(modules: seq<Layer>, sqrt: real -> real)
    requires IsSqrt(sqrt) && forall i :: 0 <= i < |modules| ==> modules[i].Valid()
    modifies set m | m in modules && m.isConv
    ensures forall i :: 0 <= i < |modules| ==> modules[i].Valid()
    ensures forall i, x :: 0 <= i < |modules| ==> modules[i].Forward(x, sqrt) == old(modules[i].Forward(x, sqrt))
    ensures forall i :: 0 <= i < |modules| && modules[i].isConv ==> modules[i].fast && modules[i].bn.None?
  {
    for n := 0 to |modules|
      invariant forall i :: 0 <= i < |modules| ==> modules[i].Valid()
      invariant forall i, x :: 0 <= i < |modules| ==> modules[i].Forward(x, sqrt) == old(modules[i].Forward(x, sqrt))
      invariant forall i :: 0 <= i < n && modules[i].isConv ==> modules[i].fast && modules[i].bn.None?
    {
      var m := modules[n];
      if m.isConv && m.bn.Some? {
        m.FuseOne(sqrt);
      }
    }
  }
}
