/** The channel counts that `parse_model` records while planning (yolov5/models/yolo.py), against the
    counts that tensors have when the planned layers run. */
module ChannelPlan {
  import opened Messages
  import opened Numbers
  import opened LayerGraph
  import SpaceDepth
  import Tensors

  /** The planner's cases.  The modules built with input and output channels are `Ghost` if they glue two
      halves of `c2` together (GhostConv, GhostBottleneck), `ConvLike` if not; of the latter some take their
      number of repeats as an argument.  `Cat` joins along a dimension; `Other` is every module of the else
      branch, with the channels it yields for those of its input. */
  datatype Kind =
    | ConvLike(c2: nat, takesRepeats: bool)
    | Ghost(c2: nat)
    | BatchNorm
    | Cat(dimension: int)
    | Detect
    | Contract(gain: nat)
    | Expand(gain: nat)
    | Other(gives: nat -> nat)

  datatype Layer = Layer(from: From, repeats: int, kind: Kind)

  /** The width multiple. */
  type Width = r: real | r > 0.0 witness 1.0

  function Froms(layers: seq<Layer>): seq<From> {
    seq(|layers|, i requires 0 <= i < |layers| => layers[i].from)
  }

  function Ceil(x: real): int {
    -(-x).Floor
  }

  /** `make_divisible` (yolov5/utils/general.py). */
  function MakeDivisible(x: real, divisor: nat): int
    requires divisor > 0
  {
    Ceil(x / divisor as real) * divisor
  }

  /** The least multiple of the divisor that is not below `x`. */
  lemma MakeDivisibleIsLeast(x: real, divisor: nat, q: int)
    requires divisor > 0
    ensures MakeDivisible(x, divisor) % divisor == 0 && MakeDivisible(x, divisor) as real >= x
    ensures (q * divisor) as real >= x ==> q * divisor >= MakeDivisible(x, divisor)
  {
    var d, c := divisor as real, Ceil(x / divisor as real);
    assert x / d * d == x;
    ScaleReal(x / d, c as real, d);
    MultipleHasNoRemainder(c, divisor);
    if (q * divisor) as real >= x {
      assert (q * divisor) as real == q as real * d;
      if q < c {
        ScaleRealStrict(q as real, x / d, d);
        assert false;
      }
      ScaleReal(c as real, q as real, d);
      assert (c * divisor) as real == c as real * d;
    }
  }

  lemma MultipleHasNoRemainder(c: int, d: nat)
    requires d > 0
    ensures (c * d) % d == 0
  {
    var q, r := (c * d) / d, (c * d) % d;
    assert (c - q) * d == r;
    if c - q >= 1 {
      ScaleInt(1, c - q, d);
      assert false;
    }
    if c - q <= -1 {
      ScaleInt(c - q, -1, d);
      assert false;
    }
  }

  function ConvChannels(c2: nat, no: nat, gw: Width): nat {
    if c2 == no then c2
    else
      MakeDivisibleIsLeast(c2 as real * gw, 8, 0);
      ScaleReal(0.0, c2 as real, gw);
      MakeDivisible(c2 as real * gw, 8)
  }

  /** An output count of `no` is kept; any other is scaled to the least multiple of 8 that is not below. */
  lemma ConvChannelsAre(c2: nat, no: nat, gw: Width, q: int)
    ensures c2 == no ==> ConvChannels(c2, no, gw) == c2
    ensures c2 != no ==> ConvChannels(c2, no, gw) % 8 == 0 && ConvChannels(c2, no, gw) as real >= Times(c2 as real, gw)
    ensures c2 != no && (q * 8) as real >= Times(c2 as real, gw) ==> q * 8 >= ConvChannels(c2, no, gw)
  {
    MakeDivisibleIsLeast(c2 as real * gw, 8, q);
  }

  /** A planned count is even unless it is an odd `no`. */
  lemma ConvChannelsOdd(c2: nat, no: nat, gw: Width)
    ensures ConvChannels(c2, no, gw) % 2 == 1 <==> c2 == no && no % 2 == 1
  {
    if c2 != no {
      MakeDivisibleIsLeast(c2 as real * gw, 8, 0);
    }
  }

  // ---- Repeats ----

  /** Python's `round`: halves go to the even neighbour. */
  function Round(x: real): int {
    var f := x.Floor;
    if x - f as real < 0.5 || (x - f as real == 0.5 && f % 2 == 0) then f else f + 1
  }

  /** `k` is an integer nearest to `x`, the even one of two. */
  predicate Nearest(x: real, k: int) {
    && -0.5 <= x - k as real <= 0.5
    && (x - k as real == 0.5 || x - k as real == -0.5 ==> k % 2 == 0)
  }

  lemma RoundIsNearest(x: real, k: int)
    ensures Nearest(x, k) <==> k == Round(x)
  {
    var f := x.Floor;
    if Nearest(x, k) {
      assert k == f || k == f + 1;
    }
  }

  /** The depth gain. */
  function Depth(l: Layer, gd: real): int {
    if l.repeats <= 1 then l.repeats
    else if Round(Times(l.repeats as real, gd)) > 1 then Round(Times(l.repeats as real, gd)) else 1
  }

  /** How many modules are built in sequence; some take the repeats as an argument instead. */
  function Copies(l: Layer, gd: real): (k: nat)
    ensures k >= 1
  {
    if (l.kind.ConvLike? && l.kind.takesRepeats) || Depth(l, gd) <= 1 then 1 else Depth(l, gd)
  }

  // ---- What the planner records ----

  /** What one layer is built as: the channels it expects, those recorded for its output, its copies, and
      its repeats argument if it takes one. */
  datatype Built = Built(kind: Kind, ins: seq<nat>, out: nat, copies: nat, inner: Option<int>)

  function ChAt(ch: seq<nat>, f: From): Option<nat> {
    if f.One? && InRange(f.index, |ch|) then Some(ch[At(f.index, |ch|)]) else None
  }

  function ChList(ch: seq<nat>, js: seq<int>): Option<seq<nat>> {
    if js == [] then Some([])
    else if !InRange(js[0], |ch|) then None
    else match ChList(ch, js[1..])
         case Some(rest) => Some([ch[At(js[0], |ch|)]] + rest)
         case None => None
  }

  function Sum(xs: seq<nat>): nat {
    if xs == [] then 0 else xs[0] + Sum(xs[1..])
  }

  /** The counts a layer's `from` names: one, or a list. */
  function Named(ch: seq<nat>, f: From): Option<Input<nat>> {
    match f
    case One(_) => (match ChAt(ch, f) case Some(c) => Some(Single(c)) case None => None)
    case Many(js) => (match ChList(ch, js) case Some(cs) => Some(List(cs)) case None => None)
  }

  /** Expected and recorded channels, `c2` before the layer given; None when Python raises. */
  function Record(named: Input<nat>, c2: nat, kind: Kind, no: nat, gw: Width): Option<(seq<nat>, nat)> {
    match (kind, named)
    case (ConvLike(a, _), Single(c)) => Some(([c], ConvChannels(a, no, gw)))
    case (Ghost(a), Single(c)) => Some(([c], ConvChannels(a, no, gw)))
    case (BatchNorm, Single(c)) => Some(([c], c2))
    case (Cat(_), List(cs)) => Some(([], Sum(cs)))
    case (Detect, List(cs)) => Some((cs, c2))
    case (Contract(g), Single(c)) => Some(([], c * Square(g)))
    case (Expand(g), Single(c)) => if g == 0 then None else Some(([], c / Square(g)))
    case (Other(_), Single(c)) => Some(([], c))
    case _ => None
  }

  function Square(g: nat): (q: nat)
    ensures (q == 0 <==> g == 0) && (q == 1 <==> g == 1)
  {
    assert g >= 2 ==> g * g >= 2 * g;
    g * g
  }

  function Plan(ch: seq<nat>, c2: nat, l: Layer, no: nat, gw: Width, gd: real): Option<Built> {
    match Named(ch, l.from)
    case None => None
    case Some(named) =>
      match Record(named, c2, l.kind, no, gw)
      case None => None
      case Some(r) =>
        Some(Built(l.kind, r.0, r.1, Copies(l, gd),
                   if l.kind.ConvLike? && l.kind.takesRepeats then Some(Depth(l, gd)) else None))
  }

  function Outs(bs: seq<Built>): (ch: seq<nat>)
    ensures |ch| == |bs| && forall i :: 0 <= i < |bs| ==> ch[i] == bs[i].out
  {
    seq(|bs|, i requires 0 <= i < |bs| => bs[i].out)
  }

  /** The list the next layer's counts come from.  `ch0` serves the first layer and is then dropped. */
  function View(ch0: seq<nat>, bs: seq<Built>): (ch: seq<nat>)
    requires ch0 != []
    ensures ch != []
  {
    if bs == [] then ch0 else Outs(bs)
  }

  function Last(ch: seq<nat>): nat
    requires ch != []
  {
    ch[|ch| - 1]
  }

  /** What is built for the first `n` layers. */
  function Planned(layers: seq<Layer>, no: nat, gw: Width, gd: real, ch0: seq<nat>, n: nat): (r: Option<seq<Built>>)
    requires n <= |layers| && ch0 != []
    ensures r.Some? ==> |r.value| == n
  {
    if n == 0 then Some([])
    else
      match Planned(layers, no, gw, gd, ch0, n - 1)
      case None => None
      case Some(bs) =>
        match Plan(View(ch0, bs), Last(View(ch0, bs)), layers[n - 1], no, gw, gd)
        case Some(b) => Some(bs + [b])
        case None => None
  }

  lemma {:induction false} PlannedPrefix(layers: seq<Layer>, no: nat, gw: Width, gd: real, ch0: seq<nat>, k: nat,
                                         n: nat)
    requires k <= n <= |layers| && ch0 != []
    ensures Planned(layers, no, gw, gd, ch0, n).Some? ==>
              Planned(layers, no, gw, gd, ch0, k).Some?
              && Planned(layers, no, gw, gd, ch0, k).value == Planned(layers, no, gw, gd, ch0, n).value[..k]
  {
    if k < n {
      PlannedPrefix(layers, no, gw, gd, ch0, k, n - 1);
    }
  }

  /** `m` repeats are left of this many: the nearest integer after the gain, but at least one. */
  ghost predicate Gained(repeats: int, gd: real, m: int) {
    if repeats <= 1 then m == repeats
    else NearestPositive(Times(repeats as real, gd), m)
  }

  ghost predicate NearestPositive(x: real, m: int) {
    exists k: int :: Nearest(x, k) && m == if k < 1 then 1 else k
  }

  lemma RoundPositive(x: real)
    ensures NearestPositive(x, if Round(x) > 1 then Round(x) else 1)
  {
    RoundIsNearest(x, Round(x));
  }

  lemma DepthGained(l: Layer, gd: real)
    ensures Gained(l.repeats, gd, Depth(l, gd))
  {
    if l.repeats > 1 {
      var x := Times(l.repeats as real, gd);
      RoundPositive(x);
      assert Depth(l, gd) == if Round(x) > 1 then Round(x) else 1;
    }
  }

  /** How often a module is built: those that take their repeats as an argument once, with that argument after
      the gain; others as often as the gain says, and at least once. */
  lemma BuiltAsGained(layers: seq<Layer>, no: nat, gw: Width, gd: real, ch0: seq<nat>, n: nat, j: nat)
    requires j < n <= |layers| && ch0 != [] && Planned(layers, no, gw, gd, ch0, n).Some?
    ensures var b, l := Planned(layers, no, gw, gd, ch0, n).value[j], layers[j];
            && b.kind == l.kind
            && if l.kind.ConvLike? && l.kind.takesRepeats then
                 b.copies == 1 && b.inner.Some? && Gained(l.repeats, gd, b.inner.value)
               else
                 b.inner.None? && exists m: int :: Gained(l.repeats, gd, m) && b.copies == if m > 1 then m else 1
  {
    BuiltAt(layers, no, gw, gd, ch0, n, j);
    var view := View(ch0, Planned(layers, no, gw, gd, ch0, j).value);
    PlanCopies(view, Last(view), layers[j], no, gw, gd);
    DepthGained(layers[j], gd);
  }

  lemma BuiltAt(layers: seq<Layer>, no: nat, gw: Width, gd: real, ch0: seq<nat>, n: nat, j: nat)
    requires j < n <= |layers| && ch0 != [] && Planned(layers, no, gw, gd, ch0, n).Some?
    ensures Planned(layers, no, gw, gd, ch0, j).Some?
    ensures var view := View(ch0, Planned(layers, no, gw, gd, ch0, j).value);
            Plan(view, Last(view), layers[j], no, gw, gd) == Some(Planned(layers, no, gw, gd, ch0, n).value[j])
  {
    PlannedPrefix(layers, no, gw, gd, ch0, j + 1, n);
    LastBuilt(layers, no, gw, gd, ch0, j);
  }

  lemma LastBuilt(layers: seq<Layer>, no: nat, gw: Width, gd: real, ch0: seq<nat>, j: nat)
    requires j < |layers| && ch0 != [] && Planned(layers, no, gw, gd, ch0, j + 1).Some?
    ensures Planned(layers, no, gw, gd, ch0, j).Some?
    ensures var view := View(ch0, Planned(layers, no, gw, gd, ch0, j).value);
            Plan(view, Last(view), layers[j], no, gw, gd) == Some(Planned(layers, no, gw, gd, ch0, j + 1).value[j])
  {
  }

  lemma PlanCopies(ch: seq<nat>, c2: nat, l: Layer, no: nat, gw: Width, gd: real)
    requires Plan(ch, c2, l, no, gw, gd).Some?
    ensures var b := Plan(ch, c2, l, no, gw, gd).value;
            && b.kind == l.kind
            && if l.kind.ConvLike? && l.kind.takesRepeats then b.copies == 1 && b.inner == Some(Depth(l, gd))
               else b.inner.None? && b.copies == if Depth(l, gd) > 1 then Depth(l, gd) else 1
  {
  }

  lemma {:induction false} SaveListNone(froms: seq<From>, k: nat, n: nat)
    requires k <= n <= |froms| && SaveList(froms, k) == None
    ensures SaveList(froms, n) == None
  {
    if k < n {
      SaveListNone(froms, k, n - 1);
    }
  }

  lemma PlannedNext(layers: seq<Layer>, no: nat, gw: Width, gd: real, ch0: seq<nat>, i: nat, bs: seq<Built>,
                    b: Option<Built>)
    requires i < |layers| && ch0 != [] && Planned(layers, no, gw, gd, ch0, i) == Some(bs)
    requires b == Plan(View(ch0, bs), Last(View(ch0, bs)), layers[i], no, gw, gd)
    ensures Planned(layers, no, gw, gd, ch0, i + 1) == if b.Some? then Some(bs + [b.value]) else None
  {
  }

  lemma PlanGoesOn(layers: seq<Layer>, no: nat, gw: Width, gd: real, ch0: seq<nat>, i: nat, bs: seq<Built>, b: Built)
    requires i < |layers| && ch0 != [] && Planned(layers, no, gw, gd, ch0, i) == Some(bs)
    requires Plan(View(ch0, bs), Last(View(ch0, bs)), layers[i], no, gw, gd) == Some(b)
    ensures Planned(layers, no, gw, gd, ch0, i + 1) == Some(bs + [b])
  {
    PlannedNext(layers, no, gw, gd, ch0, i, bs, Some(b));
  }

  lemma PlanFails(layers: seq<Layer>, no: nat, gw: Width, gd: real, ch0: seq<nat>, i: nat, bs: seq<Built>)
    requires i < |layers| && ch0 != [] && Planned(layers, no, gw, gd, ch0, i) == Some(bs)
    requires Plan(View(ch0, bs), Last(View(ch0, bs)), layers[i], no, gw, gd).None?
    ensures Planned(layers, no, gw, gd, ch0, |layers|) == None
  {
    PlannedNext(layers, no, gw, gd, ch0, i, bs, None);
    PlannedStops(layers, no, gw, gd, ch0, i + 1);
  }

  lemma PlannedStops(layers: seq<Layer>, no: nat, gw: Width, gd: real, ch0: seq<nat>, i: nat)
    requires i <= |layers| && ch0 != [] && Planned(layers, no, gw, gd, ch0, i) == None
    ensures Planned(layers, no, gw, gd, ch0, |layers|) == None
  {
    PlannedPrefix(layers, no, gw, gd, ch0, i, |layers|);
  }

  lemma SavedNext(layers: seq<Layer>, i: nat, save: seq<int>, more: Option<seq<int>>)
    requires i < |layers| && SaveList(Froms(layers), i) == Some(save)
    requires more == SavedBy(Indices(layers[i].from), i)
    ensures more.None? ==> SaveList(Froms(layers), |layers|) == None
    ensures more.Some? ==> SaveList(Froms(layers), i + 1) == Some(save + more.value)
  {
    if more.None? {
      assert SaveList(Froms(layers), i + 1) == None;
      SaveListNone(Froms(layers), i + 1, |layers|);
    }
  }

  lemma ViewNext(ch0: seq<nat>, bs: seq<Built>, b: Built)
    requires ch0 != []
    ensures View(ch0, bs + [b]) == (if bs == [] then [] else View(ch0, bs)) + [b.out]
        && Last(View(ch0, bs + [b])) == b.out
  {
    assert Outs(bs + [b]) == Outs(bs) + [b.out];
  }

  /** `parse_model`'s loop: the modules it builds and the save list, or None when Python raises. */
  method ParseModel(layers: seq<Layer>, no: nat, gw: Width, gd: real, ch0: seq<nat>)
    returns (r: Option<(seq<Built>, seq<int>)>)
    requires ch0 != []
    ensures r.Some? ==> && Planned(layers, no, gw, gd, ch0, |layers|) == Some(r.value.0)
                        && SaveList(Froms(layers), |layers|) == Some(r.value.1)
    ensures r.None? ==> || Planned(layers, no, gw, gd, ch0, |layers|) == None
                        || SaveList(Froms(layers), |layers|) == None
  {
    var built: seq<Built>, ch, save, c2 := [], ch0, [], ch0[|ch0| - 1];
    for i := 0 to |layers|
      invariant |built| == i && Planned(layers, no, gw, gd, ch0, i) == Some(built)
      invariant SaveList(Froms(layers), i) == Some(save)
      invariant ch == View(ch0, built) && c2 == Last(ch)
    {
      var b := Plan(ch, c2, layers[i], no, gw, gd);
      if b.None? {
        PlanFails(layers, no, gw, gd, ch0, i, built);
        return None;
      }
      PlanGoesOn(layers, no, gw, gd, ch0, i, built, b.value);
      c2 := b.value.out;
      var more := SavedBy(Indices(layers[i].from), i);
      SavedNext(layers, i, save, more);
      if more.None? {
        return None;
      }
      save := save + more.value;
      ViewNext(ch0, built, b.value);
      built := built + [b.value];
      if i == 0 {
        ch := [];
      }
      ch := ch + [c2];
    }
    r := Some((built, save));
  }

  // ---- What tensors have ----

  /** The channels of two halves of `c2`, each of size `c2 // 2`. */
  function TwoHalves(c2: nat): nat { 2 * (c2 / 2) }

  /** Does joining along this dimension of a (b, c, h, w) tensor add channels up? */
  predicate JoinsChannels(dimension: int) { dimension == 1 || dimension == -3 }

  /** Output channels of one module on an input with the given channels.  A Detect layer's output is no
      tensor and has no count. */
  function Channels(kind: Kind, no: nat, gw: Width, input: Input<nat>): nat {
    match (kind, input)
    case (ConvLike(a, _), _) => ConvChannels(a, no, gw)
    case (Ghost(a), _) => TwoHalves(ConvChannels(a, no, gw))
    case (BatchNorm, Single(c)) => c
    case (Cat(d), List(cs)) => if JoinsChannels(d) then Sum(cs) else if cs == [] then 0 else cs[0]
    case (Contract(g), Single(c)) => c * Square(g)
    case (Expand(g), Single(c)) => if g == 0 then 0 else c / Square(g)
    case (Other(gives), Single(c)) => gives(c)
    case _ => 0
  }

  /** The two that move pixels between space and channels have the count of the tensor they make. */
  lemma MovedChannels(x: Tensors.Tensor, g: nat, no: nat, gw: Width)
    requires SpaceDepth.Is4D(x) && g > 0
    ensures var y := SpaceDepth.Contract(x, g);
            y.Some? ==> y.value.shape[1] == Channels(Contract(g), no, gw, Single(x.shape[1]))
    ensures var y := SpaceDepth.Expand(x, g);
            y.Some? ==> y.value.shape[1] == Channels(Expand(g), no, gw, Single(x.shape[1]))
  {
    assert x.shape[1] * g * g == x.shape[1] * (g * g);
  }

  /** Of `k` modules in sequence. */
  function Through(kind: Kind, no: nat, gw: Width, input: Input<nat>, k: nat): nat
    requires k >= 1
  {
    Channels(kind, no, gw, if k == 1 then input else Single(Through(kind, no, gw, input, k - 1)))
  }

  function Flow(layers: seq<Layer>, no: nat, gw: Width, gd: real): (nat, Input<nat>) -> nat {
    (i: nat, input: Input<nat>) =>
      if i < |layers| then Through(layers[i].kind, no, gw, input, Copies(layers[i], gd)) else 0
  }

  /** The channels of all outputs of the running network, as the interpreter computes them. */
  function Real(layers: seq<Layer>, no: nat, gw: Width, gd: real, c0: nat, n: nat): (r: seq<nat>)
    requires n <= |layers| && ValidFroms(Froms(layers), n)
    ensures |r| == n
  {
    ValidNeverErrs(Froms(layers), Flow(layers, no, gw, gd), c0, n);
    Outputs(Froms(layers), Flow(layers, no, gw, gd), c0, n).value
  }

  /** The layer whose output entry `x` of layer `i` names. */
  function Source(x: int, i: nat): (k: nat)
    requires i > 0 && InRange(x, i)
    ensures k < i
  {
    At(x, i)
  }

  predicate ReadsTensors(layers: seq<Layer>, i: nat)
    requires i < |layers|
  {
    forall x :: x in Indices(layers[i].from) && i > 0 && InRange(x, i) ==> !layers[Source(x, i)].kind.Detect?
  }

  /** No layer reads a Detect layer's output. */
  predicate TensorsOnly(layers: seq<Layer>, n: nat)
    requires n <= |layers|
  {
    forall i :: 0 <= i < n ==> ReadsTensors(layers, i)
  }

  predicate RightAt(layers: seq<Layer>, ch: seq<nat>, flow: seq<nat>, j: nat)
    requires j < |layers| && j < |ch| && j < |flow|
  {
    !layers[j].kind.Detect? ==> ch[j] == flow[j]
  }

  predicate Right(layers: seq<Layer>, ch: seq<nat>, flow: seq<nat>, n: nat)
    requires n <= |layers| && n <= |ch| && n <= |flow|
  {
    forall j :: 0 <= j < n ==> RightAt(layers, ch, flow, j)
  }

  // ---- Repeating a module ----

  /** Does a second module leave this output count as it is? */
  predicate Settles(kind: Kind, out: nat) {
    match kind
    case Contract(g) => g == 1 || out == 0
    case Expand(g) => g == 1 || out == 0
    case _ => true
  }

  /** More counts in, no fewer counts out. */
  lemma Monotone(kind: Kind, no: nat, gw: Width, a: nat, b: nat)
    requires a <= b && !kind.Other?
    ensures Channels(kind, no, gw, Single(a)) <= Channels(kind, no, gw, Single(b))
  {
    match kind {
      case Contract(g) => ScaleInt(a, b, Square(g));
      case Expand(g) => if g > 0 { QuotientMonotone(a, b, Square(g)); }
      case _ =>
    }
  }

  lemma QuotientMonotone(a: nat, b: nat, q: nat)
    requires a <= b && q > 0
    ensures a / q <= b / q
  {
    assert a == a / q * q + a % q && b == b / q * q + b % q;
    if a / q >= b / q + 1 {
      ScaleInt(b / q + 1, a / q, q);
      assert false;
    }
  }

  lemma SettlesIff(kind: Kind, no: nat, gw: Width, input: Input<nat>, out: nat)
    requires out == Channels(kind, no, gw, input) && input.Single?
    requires !kind.Cat? && !kind.Detect? && !kind.Other? && (kind.Expand? ==> kind.gain > 0)
    ensures Channels(kind, no, gw, Single(out)) == out <==> Settles(kind, out)
  {
    match kind {
      case Contract(g) =>
        if g != 1 && out > 0 { TimesDiffers(out, Square(g)); }
      case Expand(g) =>
        if g != 1 && out > 0 { QuotientDiffers(out, Square(g)); }
      case _ =>
    }
  }

  lemma TimesDiffers(x: nat, q: nat)
    requires x > 0 && q != 1
    ensures x * q != x
  {
    if q >= 2 { ScaleInt(2, q, x); }
  }

  lemma QuotientDiffers(x: nat, q: nat)
    requires x > 0 && q > 1
    ensures x / q < x
  {
    assert x == x / q * q + x % q;
    if x / q >= x { ScaleInt(x, x / q, q); ScaleInt(2, q, x); assert false; }
  }

  /** Once a second module moves the count, further ones never bring it back. */
  lemma {:induction false} NeverBack(kind: Kind, no: nat, gw: Width, input: Input<nat>, k: nat)
    requires k >= 2 && !kind.Other?
    ensures var out := Channels(kind, no, gw, input);
            var next := Channels(kind, no, gw, Single(out));
            && (next <= out ==> Through(kind, no, gw, input, k) <= next)
            && (next >= out ==> Through(kind, no, gw, input, k) >= next)
  {
    var out := Channels(kind, no, gw, input);
    var next := Channels(kind, no, gw, Single(out));
    assert Through(kind, no, gw, input, 1) == out;
    if k > 2 {
      NeverBack(kind, no, gw, input, k - 1);
      var t := Through(kind, no, gw, input, k - 1);
      if next <= out {
        Monotone(kind, no, gw, t, out);
      }
      if next >= out {
        Monotone(kind, no, gw, out, t);
      }
    }
  }

  /** `k` modules in sequence give the count of one exactly when there is one or that count settles; the else
      branch's modules aside, whose counts are arbitrary. */
  lemma RepeatedIff(kind: Kind, no: nat, gw: Width, input: Input<nat>, k: nat)
    requires k >= 1 && input.Single?
    requires !kind.Cat? && !kind.Detect? && !kind.Other? && (kind.Expand? ==> kind.gain > 0)
    ensures var out := Channels(kind, no, gw, input);
            Through(kind, no, gw, input, k) == out <==> k == 1 || Settles(kind, out)
  {
    if k > 1 {
      SettlesIff(kind, no, gw, input, Channels(kind, no, gw, input));
      NeverBack(kind, no, gw, input, k);
    }
  }

  // ---- When the recorded counts are right ----

  /** The real count of the last layer before `n` that is no Detect layer; the image's if there is none. */
  function LastCount(layers: seq<Layer>, flow: seq<nat>, c0: nat, n: nat): nat
    requires n <= |layers| && n <= |flow|
  {
    if n == 0 then c0 else if layers[n - 1].kind.Detect? then LastCount(layers, flow, c0, n - 1) else flow[n - 1]
  }

  /** A batch norm's source has the real count of the last layer before the norm. */
  predicate NormAt(layers: seq<Layer>, flow: seq<nat>, c0: nat, j: nat)
    requires j < |layers| && j < |flow|
  {
    layers[j].kind.BatchNorm? && j > 0 && layers[j].from.One? && InRange(layers[j].from.index, j) ==>
      flow[Source(layers[j].from.index, j)] == LastCount(layers, flow, c0, j)
  }

  /** A repeated Contract or Expand has gain 1 (or nothing left after its first module). */
  predicate RepeatAt(layers: seq<Layer>, no: nat, gw: Width, gd: real, c0: nat, j: nat)
    requires j < |layers| && ValidFroms(Froms(layers), j)
  {
    Copies(layers[j], gd) > 1 ==> Settles(layers[j].kind, FirstCount(layers, no, gw, gd, c0, j))
  }

  /** What a layer is fed in the running network. */
  function Fed(layers: seq<Layer>, no: nat, gw: Width, gd: real, c0: nat, j: nat): Outcome<Input<nat>>
    requires j < |layers| && ValidFroms(Froms(layers), j)
  {
    var outs := Real(layers, no, gw, gd, c0, j);
    ReadAll(outs, Current(outs, c0), layers[j].from)
  }

  /** The output count of a layer's first module in the running network. */
  function FirstCount(layers: seq<Layer>, no: nat, gw: Width, gd: real, c0: nat, j: nat): nat
    requires j < |layers| && ValidFroms(Froms(layers), j)
  {
    match Fed(layers, no, gw, gd, c0, j)
    case Value(input) => Channels(layers[j].kind, no, gw, input)
    case _ => 0
  }

  /** Modules that yield what their branch records: two halves of a count that is no odd `no`, tensors joined
      along their channels (or nothing to add to the first), an else branch that keeps its input's count. */
  predicate Yields(kind: Kind, no: nat, gw: Width, input: Input<nat>, k: nat)
    requires k >= 1
  {
    match (kind, input)
    case (Ghost(a), _) => !(a == no && no % 2 == 1)
    case (Cat(d), List(cs)) => d == 1 || d == -3 || cs == [] || Sum(cs[1..]) == 0
    case (Other(_), Single(c)) => Through(kind, no, gw, input, k) == c
    case _ => true
  }

  predicate YieldsAt(layers: seq<Layer>, no: nat, gw: Width, gd: real, c0: nat, j: nat)
    requires j < |layers| && ValidFroms(Froms(layers), j)
  {
    var fed := Fed(layers, no, gw, gd, c0, j);
    fed.Value? ==> Yields(layers[j].kind, no, gw, fed.value, Copies(layers[j], gd))
  }

  /** Layer `j` is recorded with what it yields, if its inputs are recorded right. */
  predicate MeetsAt(layers: seq<Layer>, flow: seq<nat>, no: nat, gw: Width, gd: real, c0: nat, j: nat)
    requires j < |layers| && j < |flow| && ValidFroms(Froms(layers), j)
  {
    && NormAt(layers, flow, c0, j)
    && RepeatAt(layers, no, gw, gd, c0, j)
    && YieldsAt(layers, no, gw, gd, c0, j)
  }

  /** Every layer meets its condition. */
  predicate Meets(layers: seq<Layer>, no: nat, gw: Width, gd: real, c0: nat, n: nat)
    requires n <= |layers| && ValidFroms(Froms(layers), n)
  {
    forall j :: 0 <= j < n ==> MeetsAt(layers, Real(layers, no, gw, gd, c0, n), no, gw, gd, c0, j)
  }

  /** Layers that take a list are not repeated: their second module would raise. */
  predicate ListsOnce(layers: seq<Layer>, gd: real, n: nat)
    requires n <= |layers|
  {
    forall j :: 0 <= j < n && (layers[j].kind.Cat? || layers[j].kind.Detect?) ==> Copies(layers[j], gd) == 1
  }

  /** The planner accepts the first `n` layers, whose running network reads tensors only and takes lists once. */
  predicate Accepted(layers: seq<Layer>, no: nat, gw: Width, gd: real, ch0: seq<nat>, n: nat) {
    && n <= |layers| && ch0 != [] && Planned(layers, no, gw, gd, ch0, n).Some?
    && ValidFroms(Froms(layers), n) && TensorsOnly(layers, n) && ListsOnce(layers, gd, n)
  }

  /** The recorded counts of the first `n` layers are the real ones. */
  predicate RecordedRight(layers: seq<Layer>, no: nat, gw: Width, gd: real, ch0: seq<nat>, n: nat)
    requires Accepted(layers, no, gw, gd, ch0, n)
  {
    Right(layers, Outs(Planned(layers, no, gw, gd, ch0, n).value), Real(layers, no, gw, gd, Last(ch0), n), n)
  }

  /** The sources named by `js` are recorded right. */
  predicate SourcesRight(view: seq<nat>, outs: seq<nat>, js: seq<int>)
    requires |view| == |outs|
  {
    forall k :: 0 <= k < |js| ==> InRange(js[k], |outs|) && view[At(js[k], |outs|)] == outs[At(js[k], |outs|)]
  }

  /** The first layer can only read the image. */
  predicate ReadsImage(js: seq<int>) {
    forall k :: 0 <= k < |js| ==> js[k] == -1
  }

  /** What is read is recorded right: the view `view` before a layer, the real counts `outs`. */
  predicate Sees(view: seq<nat>, outs: seq<nat>, x: nat, f: From) {
    view != [] && if outs == [] then x == Last(view) && ReadsImage(Indices(f))
                  else |view| == |outs| && x == Last(outs) && SourcesRight(view, outs, Indices(f))
  }

  lemma {:induction false} ListMatches(view: seq<nat>, outs: seq<nat>, x: nat, js: seq<int>)
    requires Sees(view, outs, x, Many(js))
    ensures GatherAll(outs, x, js).Value? && ChList(view, js) == Some(GatherAll(outs, x, js).value)
  {
    if js != [] {
      ListMatches(view, outs, x, js[1..]);
    }
  }

  /** The planner names exactly what the layer is fed. */
  lemma InputMatches(f: From, view: seq<nat>, outs: seq<nat>, x: nat)
    requires Sees(view, outs, x, f)
    ensures ReadAll(outs, x, f).Value? && Named(view, f) == Some(ReadAll(outs, x, f).value)
  {
    if f.Many? {
      ListMatches(view, outs, x, f.indices);
    } else {
      assert f.index == Indices(f)[0];
    }
  }

  lemma RealExtends(layers: seq<Layer>, no: nat, gw: Width, gd: real, c0: nat, n: nat)
    requires 0 < n <= |layers| && ValidFroms(Froms(layers), n)
    ensures var outs := Real(layers, no, gw, gd, c0, n - 1);
            var input := ReadAll(outs, Current(outs, c0), layers[n - 1].from);
            && input.Value?
            && Real(layers, no, gw, gd, c0, n) ==
               outs + [Through(layers[n - 1].kind, no, gw, input.value, Copies(layers[n - 1], gd))]
  {
    ValidNeverErrs(Froms(layers), Flow(layers, no, gw, gd), c0, n);
    ValidNeverErrs(Froms(layers), Flow(layers, no, gw, gd), c0, n - 1);
    assert Froms(layers)[n - 1] == layers[n - 1].from;
  }

  lemma {:induction false} LastCountPrefix(layers: seq<Layer>, flow: seq<nat>, x: nat, c0: nat, n: nat)
    requires n <= |layers| && n <= |flow|
    ensures LastCount(layers, flow + [x], c0, n) == LastCount(layers, flow, c0, n)
  {
    if n > 0 { LastCountPrefix(layers, flow, x, c0, n - 1); }
  }

  lemma NormPrefix(layers: seq<Layer>, flow: seq<nat>, x: nat, c0: nat, j: nat)
    requires j < |flow| && j < |layers|
    ensures NormAt(layers, flow + [x], c0, j) <==> NormAt(layers, flow, c0, j)
  {
    LastCountPrefix(layers, flow, x, c0, j);
  }

  lemma RightExtends(layers: seq<Layer>, ch: seq<nat>, c: nat, flow: seq<nat>, x: nat, n: nat)
    requires n < |layers| && |ch| == |flow| == n
    ensures Right(layers, ch + [c], flow + [x], n + 1) <==>
              Right(layers, ch, flow, n) && RightAt(layers, ch + [c], flow + [x], n)
  {
    forall j | 0 <= j < n
      ensures RightAt(layers, ch + [c], flow + [x], j) <==> RightAt(layers, ch, flow, j)
    {
    }
  }

  lemma MeetsExtends(layers: seq<Layer>, no: nat, gw: Width, gd: real, c0: nat, n: nat)
    requires 0 < n <= |layers| && ValidFroms(Froms(layers), n)
    ensures Meets(layers, no, gw, gd, c0, n) <==>
              && Meets(layers, no, gw, gd, c0, n - 1)
              && MeetsAt(layers, Real(layers, no, gw, gd, c0, n), no, gw, gd, c0, n - 1)
  {
    RealExtends(layers, no, gw, gd, c0, n);
    var flow, flow' := Real(layers, no, gw, gd, c0, n - 1), Real(layers, no, gw, gd, c0, n);
    forall j | 0 <= j < n - 1
      ensures MeetsAt(layers, flow', no, gw, gd, c0, j) <==> MeetsAt(layers, flow, no, gw, gd, c0, j)
    {
      NormPrefix(layers, flow, flow'[n - 1], c0, j);
    }
  }

  /** Detect layers leave `c2` alone. */
  predicate Carried(layers: seq<Layer>, ch0: seq<nat>, bs: seq<Built>)
    requires |bs| <= |layers| && ch0 != []
  {
    forall j :: 0 <= j < |bs| && layers[j].kind.Detect? ==> bs[j].out == Last(View(ch0, bs[..j]))
  }

  lemma CarriedNext(layers: seq<Layer>, ch0: seq<nat>, bs: seq<Built>, b: Built)
    requires |bs| < |layers| && ch0 != [] && Carried(layers, ch0, bs)
    requires layers[|bs|].kind.Detect? ==> b.out == Last(View(ch0, bs))
    ensures Carried(layers, ch0, bs + [b])
  {
    forall j | 0 <= j <= |bs| && layers[j].kind.Detect?
      ensures (bs + [b])[j].out == Last(View(ch0, (bs + [b])[..j]))
    {
      assert (bs + [b])[..j] == bs[..j];
      assert bs[..|bs|] == bs;
    }
  }

  lemma DetectKeeps(ch: seq<nat>, c2: nat, l: Layer, no: nat, gw: Width, gd: real)
    requires l.kind.Detect? && Plan(ch, c2, l, no, gw, gd).Some?
    ensures Plan(ch, c2, l, no, gw, gd).value.out == c2
  {
  }

  lemma {:induction false} PlannedCarries(layers: seq<Layer>, no: nat, gw: Width, gd: real, ch0: seq<nat>, n: nat)
    requires n <= |layers| && ch0 != [] && Planned(layers, no, gw, gd, ch0, n).Some?
    ensures Carried(layers, ch0, Planned(layers, no, gw, gd, ch0, n).value)
  {
    if n > 0 {
      LastBuilt(layers, no, gw, gd, ch0, n - 1);
      PlannedCarries(layers, no, gw, gd, ch0, n - 1);
      NextCarries(layers, no, gw, gd, ch0, n - 1);
    }
  }

  lemma NextCarries(layers: seq<Layer>, no: nat, gw: Width, gd: real, ch0: seq<nat>, j: nat)
    requires j < |layers| && ch0 != [] && Planned(layers, no, gw, gd, ch0, j + 1).Some?
    requires Planned(layers, no, gw, gd, ch0, j).Some?
    requires Carried(layers, ch0, Planned(layers, no, gw, gd, ch0, j).value)
    ensures Carried(layers, ch0, Planned(layers, no, gw, gd, ch0, j + 1).value)
  {
    var bs, bs' := Planned(layers, no, gw, gd, ch0, j).value, Planned(layers, no, gw, gd, ch0, j + 1).value;
    LastBuilt(layers, no, gw, gd, ch0, j);
    PlannedPrefix(layers, no, gw, gd, ch0, j, j + 1);
    assert bs' == bs + [bs'[j]];
    PlanCarries(layers, no, gw, gd, ch0, bs, Some(bs'[j]));
  }

  lemma PlanCarries(layers: seq<Layer>, no: nat, gw: Width, gd: real, ch0: seq<nat>, bs: seq<Built>, b: Option<Built>)
    requires |bs| < |layers| && ch0 != [] && Carried(layers, ch0, bs) && b.Some?
    requires b == Plan(View(ch0, bs), Last(View(ch0, bs)), layers[|bs|], no, gw, gd)
    ensures Carried(layers, ch0, bs + [b.value])
  {
    if layers[|bs|].kind.Detect? {
      DetectKeeps(View(ch0, bs), Last(View(ch0, bs)), layers[|bs|], no, gw, gd);
    }
    CarriedNext(layers, ch0, bs, b.value);
  }

  /** With right counts so far, `c2` is the real count of the last layer that is no Detect layer. */
  lemma {:induction false} LastRecorded(layers: seq<Layer>, ch0: seq<nat>, bs: seq<Built>, flow: seq<nat>)
    requires |bs| <= |layers| && |bs| <= |flow| && ch0 != []
    requires Carried(layers, ch0, bs) && Right(layers, Outs(bs), flow, |bs|)
    ensures Last(View(ch0, bs)) == LastCount(layers, flow, Last(ch0), |bs|)
  {
    if bs != [] {
      var n, front := |bs| - 1, bs[..|bs| - 1];
      if layers[n].kind.Detect? {
        forall j | 0 <= j < n
          ensures RightAt(layers, Outs(front), flow, j)
          ensures layers[j].kind.Detect? ==> front[j].out == Last(View(ch0, front[..j]))
        {
          assert RightAt(layers, Outs(bs), flow, j) && front[..j] == bs[..j];
        }
        LastRecorded(layers, ch0, front, flow);
      } else {
        assert RightAt(layers, Outs(bs), flow, n);
      }
    }
  }

  lemma InputsRecordedRight(layers: seq<Layer>, ch0: seq<nat>, ch: seq<nat>, flow: seq<nat>, n: nat)
    requires 0 < n <= |layers| && |ch| == |flow| == n - 1 && ch0 != []
    requires ValidFroms(Froms(layers), n) && TensorsOnly(layers, n) && Right(layers, ch, flow, n - 1)
    ensures Sees(if n == 1 then ch0 else ch, flow, Current(flow, Last(ch0)), layers[n - 1].from)
  {
    var js := Indices(layers[n - 1].from);
    assert Froms(layers)[n - 1] == layers[n - 1].from && ReadsTensors(layers, n - 1);
    forall k | 0 <= k < |js|
      ensures if n == 1 then js[k] == -1
              else InRange(js[k], n - 1) && ch[At(js[k], n - 1)] == flow[At(js[k], n - 1)]
    {
      assert js[k] in Indices(Froms(layers)[n - 1]);
      if n > 1 {
        assert RightAt(layers, ch, flow, Source(js[k], n - 1));
      }
    }
  }

  /** One layer whose inputs are recorded right. */
  lemma RecordMatches(named: Input<nat>, c2: nat, l: Layer, no: nat, gw: Width, gd: real)
    requires Record(named, c2, l.kind, no, gw).Some? && !l.kind.Detect? && (l.kind.Cat? ==> Copies(l, gd) == 1)
    ensures var out := Record(named, c2, l.kind, no, gw).value.1;
            out == Through(l.kind, no, gw, named, Copies(l, gd)) <==>
              && (l.kind.BatchNorm? ==> named == Single(c2))
              && (Copies(l, gd) > 1 ==> Settles(l.kind, Channels(l.kind, no, gw, named)))
              && Yields(l.kind, no, gw, named, Copies(l, gd))
  {
    match l.kind {
      case BatchNorm => NormThrough(no, gw, named, Copies(l, gd));
      case Cat(_) =>
      case Other(_) =>
      case Ghost(a) =>
        RepeatedIff(l.kind, no, gw, named, Copies(l, gd));
        ConvChannelsOdd(a, no, gw);
      case _ => RepeatedIff(l.kind, no, gw, named, Copies(l, gd));
    }
  }

  lemma {:induction false} NormThrough(no: nat, gw: Width, input: Input<nat>, k: nat)
    requires k >= 1 && input.Single?
    ensures Through(BatchNorm, no, gw, input, k) == input.x
  {
    if k > 1 { NormThrough(no, gw, input, k - 1); }
  }

  /** The planner takes the right counts for the next layer, and its `c2` is the real last one. */
  lemma StepReads(layers: seq<Layer>, no: nat, gw: Width, gd: real, ch0: seq<nat>, n: nat)
    requires n > 0 && Accepted(layers, no, gw, gd, ch0, n)
    requires Accepted(layers, no, gw, gd, ch0, n - 1) && RecordedRight(layers, no, gw, gd, ch0, n - 1)
    ensures var view := View(ch0, Planned(layers, no, gw, gd, ch0, n - 1).value);
            && Fed(layers, no, gw, gd, Last(ch0), n - 1).Value?
            && Named(view, layers[n - 1].from) == Some(Fed(layers, no, gw, gd, Last(ch0), n - 1).value)
            && Last(view) == LastCount(layers, Real(layers, no, gw, gd, Last(ch0), n), Last(ch0), n - 1)
  {
    var c0 := Last(ch0);
    var bs := Planned(layers, no, gw, gd, ch0, n - 1).value;
    var flow, flow' := Real(layers, no, gw, gd, c0, n - 1), Real(layers, no, gw, gd, c0, n);
    RealExtends(layers, no, gw, gd, c0, n);
    InputsRecordedRight(layers, ch0, Outs(bs), flow, n);
    InputMatches(layers[n - 1].from, View(ch0, bs), flow, Current(flow, c0));
    PlannedCarries(layers, no, gw, gd, ch0, n - 1);
    LastRecorded(layers, ch0, bs, flow);
    LastCountPrefix(layers, flow, flow'[n - 1], c0, n - 1);
  }

  /** For a batch norm: is its input's count the real last one? */
  lemma NormReads(layers: seq<Layer>, no: nat, gw: Width, gd: real, c0: nat, n: nat)
    requires 0 < n <= |layers| && ValidFroms(Froms(layers), n) && layers[n - 1].from.One?
    requires layers[n - 1].kind.BatchNorm?
    ensures var flow, fed := Real(layers, no, gw, gd, c0, n), Fed(layers, no, gw, gd, c0, n - 1);
            && fed.Value? && fed.value.Single?
            && (NormAt(layers, flow, c0, n - 1) <==> fed.value.x == LastCount(layers, flow, c0, n - 1))
  {
    var js := layers[n - 1].from;
    assert Froms(layers)[n - 1] == js && js.index in Indices(js);
    RealExtends(layers, no, gw, gd, c0, n);
  }

  lemma StepMatches(layers: seq<Layer>, no: nat, gw: Width, gd: real, ch0: seq<nat>, n: nat)
    requires n > 0 && Accepted(layers, no, gw, gd, ch0, n)
    requires Accepted(layers, no, gw, gd, ch0, n - 1) && RecordedRight(layers, no, gw, gd, ch0, n - 1)
    ensures RightAt(layers, Outs(Planned(layers, no, gw, gd, ch0, n).value), Real(layers, no, gw, gd, Last(ch0), n),
                    n - 1) <==>
              MeetsAt(layers, Real(layers, no, gw, gd, Last(ch0), n), no, gw, gd, Last(ch0), n - 1)
  {
    var c0, l := Last(ch0), layers[n - 1];
    var view := View(ch0, Planned(layers, no, gw, gd, ch0, n - 1).value);
    StepReads(layers, no, gw, gd, ch0, n);
    RealExtends(layers, no, gw, gd, c0, n);
    if !l.kind.Detect? {
      RecordMatches(Fed(layers, no, gw, gd, c0, n - 1).value, Last(view), l, no, gw, gd);
      if l.kind.BatchNorm? {
        NormReads(layers, no, gw, gd, c0, n);
      }
    }
  }

  /** The recorded counts are the real ones, for all layers but Detect, exactly when every batch norm's
      source has the real count of the last layer before it (the planner leaves `c2` as it was), every repeated
      Contract or Expand has gain 1, and every other module yields what its branch records. */
  lemma {:induction false} RecordedRightIff(layers: seq<Layer>, no: nat, gw: Width, gd: real, ch0: seq<nat>, n: nat)
    requires Accepted(layers, no, gw, gd, ch0, n)
    ensures RecordedRight(layers, no, gw, gd, ch0, n) <==> Meets(layers, no, gw, gd, Last(ch0), n)
  {
    if n > 0 {
      OneLess(layers, no, gw, gd, ch0, n);
      RecordedRightIff(layers, no, gw, gd, ch0, n - 1);
      RecordedNext(layers, no, gw, gd, ch0, n);
    }
  }

  lemma RecordedNext(layers: seq<Layer>, no: nat, gw: Width, gd: real, ch0: seq<nat>, n: nat)
    requires n > 0 && Accepted(layers, no, gw, gd, ch0, n)
    requires Accepted(layers, no, gw, gd, ch0, n - 1)
    requires RecordedRight(layers, no, gw, gd, ch0, n - 1) <==> Meets(layers, no, gw, gd, Last(ch0), n - 1)
    ensures RecordedRight(layers, no, gw, gd, ch0, n) <==> Meets(layers, no, gw, gd, Last(ch0), n)
  {
    RightNext(layers, no, gw, gd, ch0, n);
    MeetsExtends(layers, no, gw, gd, Last(ch0), n);
  }

  lemma OneLess(layers: seq<Layer>, no: nat, gw: Width, gd: real, ch0: seq<nat>, n: nat)
    requires n > 0 && Accepted(layers, no, gw, gd, ch0, n)
    ensures Accepted(layers, no, gw, gd, ch0, n - 1)
  {
  }

  lemma RightNext(layers: seq<Layer>, no: nat, gw: Width, gd: real, ch0: seq<nat>, n: nat)
    requires n > 0 && Accepted(layers, no, gw, gd, ch0, n)
    requires Accepted(layers, no, gw, gd, ch0, n - 1)
    ensures RecordedRight(layers, no, gw, gd, ch0, n) <==>
              && RecordedRight(layers, no, gw, gd, ch0, n - 1)
              && MeetsAt(layers, Real(layers, no, gw, gd, Last(ch0), n), no, gw, gd, Last(ch0), n - 1)
  {
    var bs, bs' := Planned(layers, no, gw, gd, ch0, n - 1).value, Planned(layers, no, gw, gd, ch0, n).value;
    var flow, flow' := Real(layers, no, gw, gd, Last(ch0), n - 1), Real(layers, no, gw, gd, Last(ch0), n);
    RealExtends(layers, no, gw, gd, Last(ch0), n);
    assert Outs(bs') == Outs(bs) + [bs'[n - 1].out];
    RightExtends(layers, Outs(bs), bs'[n - 1].out, flow, flow'[n - 1], n - 1);
    if RecordedRight(layers, no, gw, gd, ch0, n - 1) {
      StepMatches(layers, no, gw, gd, ch0, n);
    }
  }

  /** A module that yields what its branch records, whatever it is fed. */
  ghost predicate PlainKind(kind: Kind, no: nat) {
    match kind
    case Ghost(a) => !(a == no && no % 2 == 1)
    case Cat(d) => d == 1 || d == -3
    case Other(gives) => forall c: nat :: gives(c) == c
    case _ => true
  }

  lemma {:induction false} PlainYields(kind: Kind, no: nat, gw: Width, input: Input<nat>, k: nat)
    requires k >= 1 && PlainKind(kind, no)
    ensures Yields(kind, no, gw, input, k)
  {
    if k > 1 {
      PlainYields(kind, no, gw, input, k - 1);
    }
  }

  /** Enough to look at the list: every batch norm reads the layer before it, every repeated Contract or Expand
      has gain 1, no Ghost layer has an odd `no` of outputs, tensors are joined along their channels, and the
      else branch's modules keep every count. */
  lemma {:induction false} PlainListsAreRight(layers: seq<Layer>, no: nat, gw: Width, gd: real, ch0: seq<nat>, n: nat)
    requires Accepted(layers, no, gw, gd, ch0, n)
    requires forall j :: 0 <= j < n && layers[j].kind.BatchNorm? ==> layers[j].from == One(-1)
    requires forall j :: 0 <= j < n && Copies(layers[j], gd) > 1 ==>
               (layers[j].kind.Contract? || layers[j].kind.Expand? ==> layers[j].kind.gain == 1)
    requires forall j :: 0 <= j < n ==> PlainKind(layers[j].kind, no)
    ensures RecordedRight(layers, no, gw, gd, ch0, n)
  {
    var flow := Real(layers, no, gw, gd, Last(ch0), n);
    forall j | 0 <= j < n
      ensures MeetsAt(layers, flow, no, gw, gd, Last(ch0), j)
    {
      if Fed(layers, no, gw, gd, Last(ch0), j).Value? {
        PlainYields(layers[j].kind, no, gw, Fed(layers, no, gw, gd, Last(ch0), j).value, Copies(layers[j], gd));
      }
      assert ReadsTensors(layers, j);
      if layers[j].kind.BatchNorm? && j > 0 {
        assert -1 in Indices(layers[j].from) && Source(-1, j) == j - 1;
      }
    }
    RecordedRightIff(layers, no, gw, gd, ch0, n);
  }

  // ---- What modules are fed ----

  /** Is the module built for this input? */
  predicate Fits(b: Built, input: Input<nat>) {
    match (b.kind, input)
    case (ConvLike(_, _), Single(c)) => b.ins == [c]
    case (Ghost(_), Single(c)) => b.ins == [c]
    case (BatchNorm, Single(c)) => b.ins == [c]
    case (Cat(_), List(_)) => true
    case (Detect, List(cs)) => b.ins == cs
    case (Contract(_), Single(_)) => true
    case (Expand(_), Single(_)) => true
    case (Other(_), Single(_)) => true
    case _ => false
  }

  /** What module `j` of a layer's sequence is fed. */
  function CopyInput(kind: Kind, no: nat, gw: Width, input: Input<nat>, j: nat): Input<nat> {
    if j == 0 then input else Single(Through(kind, no, gw, input, j))
  }

  lemma {:induction false} ConvThrough(kind: Kind, no: nat, gw: Width, input: Input<nat>, k: nat)
    requires k >= 1 && (kind.ConvLike? || kind.Ghost?)
    ensures Through(kind, no, gw, input, k) == Channels(kind, no, gw, input)
  {
  }

  lemma CopiesFit(b: Built, named: Input<nat>, c2: nat, no: nat, gw: Width)
    requires Record(named, c2, b.kind, no, gw) == Some((b.ins, b.out)) && b.copies >= 1
    ensures (forall j :: 0 <= j < b.copies ==> Fits(b, CopyInput(b.kind, no, gw, named, j))) <==>
              b.copies == 1 || match b.kind
                               case ConvLike(_, _) => b.ins == [b.out]
                               case Ghost(_) => b.ins == [TwoHalves(b.out)]
                               case Cat(_) => false
                               case Detect => false
                               case _ => true
  {
    assert Fits(b, CopyInput(b.kind, no, gw, named, 0));
    forall j | 1 <= j < b.copies
      ensures b.kind.ConvLike? ==> CopyInput(b.kind, no, gw, named, j) == Single(b.out)
      ensures b.kind.Ghost? ==> CopyInput(b.kind, no, gw, named, j) == Single(TwoHalves(b.out))
      ensures b.kind.BatchNorm? ==> CopyInput(b.kind, no, gw, named, j) == named
    {
      if b.kind.ConvLike? || b.kind.Ghost? { ConvThrough(b.kind, no, gw, named, j); }
      if b.kind.BatchNorm? { NormThrough(no, gw, named, j); }
    }
    if b.copies > 1 {
      assert Fits(b, CopyInput(b.kind, no, gw, named, 1)) ==> !b.kind.Cat? && !b.kind.Detect?;
    }
  }

  /** With right counts so far, every module of the next layer is built for what it is fed exactly when the
      layer is not repeated, or needs no counts, or has as many channels out as in. */
  lemma BuiltForItsInputIff(layers: seq<Layer>, no: nat, gw: Width, gd: real, ch0: seq<nat>, i: nat)
    requires i < |layers| && ch0 != [] && Planned(layers, no, gw, gd, ch0, i + 1).Some?
    requires ValidFroms(Froms(layers), i + 1) && TensorsOnly(layers, i + 1) && ListsOnce(layers, gd, i)
    requires Meets(layers, no, gw, gd, Last(ch0), i)
    ensures var outs := Real(layers, no, gw, gd, Last(ch0), i);
            var b := Planned(layers, no, gw, gd, ch0, i + 1).value[i];
            var fed := ReadAll(outs, Current(outs, Last(ch0)), layers[i].from);
            && fed.Value? && b.copies >= 1 && Fits(b, fed.value)
            && ((forall j :: 0 <= j < b.copies ==> Fits(b, CopyInput(b.kind, no, gw, fed.value, j))) <==>
                b.copies == 1 || match b.kind
                                 case ConvLike(_, _) => b.ins == [b.out]
                                 case Ghost(_) => b.ins == [TwoHalves(b.out)]
                                 case Cat(_) => false
                                 case Detect => false
                                 case _ => true)
  {
    var bs := Planned(layers, no, gw, gd, ch0, i).value;
    var outs := Real(layers, no, gw, gd, Last(ch0), i);
    RecordedRightIff(layers, no, gw, gd, ch0, i);
    InputsRecordedRight(layers, ch0, Outs(bs), outs, i + 1);
    InputMatches(layers[i].from, View(ch0, bs), outs, Current(outs, Last(ch0)));
    var fed := ReadAll(outs, Current(outs, Last(ch0)), layers[i].from).value;
    CopiesFit(Planned(layers, no, gw, gd, ch0, i + 1).value[i], fed, Last(View(ch0, bs)), no, gw);
  }

  // ---- Where it goes wrong ----

  const CONV16 := Layer(One(-1), 1, ConvLike(16, false))
  const CONV32 := Layer(One(-1), 1, ConvLike(32, false))
  const NORM_BACK := Layer(One(-2), 1, BatchNorm)
  const CONTRACT_TWICE := Layer(One(-1), 2, Contract(2))
  const JOIN_BATCH := Layer(Many([-1, -1]), 1, Cat(0))
  const PLAIN_CONV8 := Layer(One(-1), 1, Other((_: nat) => 8))
  const GHOST255 := Layer(One(-1), 1, Ghost(255))

  lemma Eights()
    ensures ConvChannels(16, 255, 1.0) == 16 && ConvChannels(32, 255, 1.0) == 32
  {
    assert Ceil(2.0) == 2 && Ceil(4.0) == 4;
  }

  lemma PlanStep(layers: seq<Layer>, ch0: seq<nat>, n: nat, bs: seq<Built>, b: Built)
    requires n < |layers| && ch0 != [] && Planned(layers, 255, 1.0, 1.0, ch0, n) == Some(bs)
    requires Plan(View(ch0, bs), Last(View(ch0, bs)), layers[n], 255, 1.0, 1.0) == Some(b)
    ensures Planned(layers, 255, 1.0, 1.0, ch0, n + 1) == Some(bs + [b])
  {
  }

  /** The first layer of 16 channels, on an image of 3. */
  lemma FirstConv(layers: seq<Layer>) returns (b: Built)
    requires layers != [] && layers[0] == CONV16
    ensures Planned(layers, 255, 1.0, 1.0, [3], 1) == Some([b]) && b.out == 16 && View([3], [b]) == [16]
  {
    Eights();
    b := Built(CONV16.kind, [3], 16, 1, None);
    assert Named([3], One(-1)) == Some(Single(3));
    PlanStep(layers, [3], 0, [], b);
    assert [] + [b] == [b];
  }

  lemma {:induction false} FirstReal(layers: seq<Layer>)
    requires layers != [] && layers[0] == CONV16 && ValidFroms(Froms(layers), 1)
    ensures Real(layers, 255, 1.0, 1.0, 3, 1) == [16]
  {
    Eights();
    RealExtends(layers, 255, 1.0, 1.0, 3, 1);
  }

  lemma NormPlanned(layers: seq<Layer>)
    requires layers == [CONV16, CONV32, NORM_BACK]
    ensures Planned(layers, 255, 1.0, 1.0, [3], 3).Some?
    ensures Outs(Planned(layers, 255, 1.0, 1.0, [3], 3).value) == [16, 32, 32]
  {
    var a, b := NormTwo(layers);
    var c := Built(BatchNorm, [16], 32, 1, None);
    assert Outs([a, b]) == [16, 32] && Named([16, 32], One(-2)) == Some(Single(16));
    PlanStep(layers, [3], 2, [a, b], c);
    assert [a, b] + [c] == [a, b, c] && Outs([a, b, c]) == [16, 32, 32];
  }

  lemma NormTwo(layers: seq<Layer>) returns (a: Built, b: Built)
    requires layers == [CONV16, CONV32, NORM_BACK]
    ensures Planned(layers, 255, 1.0, 1.0, [3], 2) == Some([a, b]) && a.out == 16 && b.out == 32
  {
    Eights();
    a := FirstConv(layers);
    b := Built(CONV32.kind, [16], 32, 1, None);
    assert Named([16], One(-1)) == Some(Single(16));
    PlanStep(layers, [3], 1, [a], b);
    assert [a] + [b] == [a, b];
  }

  lemma NormReal(layers: seq<Layer>)
    requires layers == [CONV16, CONV32, NORM_BACK] && ValidFroms(Froms(layers), 3)
    ensures Real(layers, 255, 1.0, 1.0, 3, 3) == [16, 32, 16]
  {
    Eights();
    FirstReal(layers);
    RealExtends(layers, 255, 1.0, 1.0, 3, 2);
    RealExtends(layers, 255, 1.0, 1.0, 3, 3);
  }

  /** A batch norm that reads two layers back is recorded with the wrong count. */
  lemma NormRecordedWrong()
    ensures var layers := [CONV16, CONV32, NORM_BACK];
            && ValidFroms(Froms(layers), 3) && Planned(layers, 255, 1.0, 1.0, [3], 3).Some?
            && Outs(Planned(layers, 255, 1.0, 1.0, [3], 3).value) == [16, 32, 32]
            && Real(layers, 255, 1.0, 1.0, 3, 3) == [16, 32, 16]
  {
    NormPlanned([CONV16, CONV32, NORM_BACK]);
    NormReal([CONV16, CONV32, NORM_BACK]);
  }

  lemma FirstRest(layers: seq<Layer>, b: Built) returns (a: Built)
    requires |layers| == 2 && layers[0] == CONV16 && Plan([16], 16, layers[1], 255, 1.0, 1.0) == Some(b)
    ensures Planned(layers, 255, 1.0, 1.0, [3], 2) == Some([a, b]) && Outs([a, b]) == [16, b.out]
  {
    a := FirstConv(layers);
    PlanStep(layers, [3], 1, [a], b);
    assert [a] + [b] == [a, b];
  }

  lemma FirstThen(layers: seq<Layer>, c: nat)
    requires |layers| == 2 && layers[0] == CONV16 && ValidFroms(Froms(layers), 2)
    requires var input := ReadAll([16], 16, layers[1].from);
             input.Value? && Through(layers[1].kind, 255, 1.0, input.value, Copies(layers[1], 1.0)) == c
    ensures Real(layers, 255, 1.0, 1.0, 3, 2) == [16, c]
  {
    FirstReal(layers);
    RealExtends(layers, 255, 1.0, 1.0, 3, 2);
  }

  /** A repeated Contract is recorded as if it came once. */
  lemma RepeatRecordedWrong()
    ensures var layers := [CONV16, CONTRACT_TWICE];
            && ValidFroms(Froms(layers), 2) && Planned(layers, 255, 1.0, 1.0, [3], 2).Some?
            && Outs(Planned(layers, 255, 1.0, 1.0, [3], 2).value) == [16, 64]
            && Real(layers, 255, 1.0, 1.0, 3, 2) == [16, 256]
  {
    var layers := [CONV16, CONTRACT_TWICE];
    assert Round(2.0) == 2 && Copies(CONTRACT_TWICE, 1.0) == 2;
    assert Named([16], One(-1)) == Some(Single(16));
    var a := FirstRest(layers, Built(Contract(2), [], 64, 2, None));
    assert Through(Contract(2), 255, 1.0, Single(16), 1) == 64;
    assert Through(Contract(2), 255, 1.0, Single(16), 2) == 256;
    FirstThen(layers, 256);
  }

  lemma ReadTwice(ch: seq<nat>, js: seq<int>)
    requires ch != [] && js == [-1, -1]
    ensures var c := Last(ch); ChList(ch, js) == Some([c, c]) && GatherAll(ch, c, js) == Value([c, c])
  {
    var c, rest := Last(ch), js[1..];
    assert rest == [-1] && rest[1..] == [];
    assert ChList(ch, rest[1..]) == Some([]) && GatherAll(ch, c, rest[1..]) == Value([]);
    assert [c] + [] == [c] && [c] + [c] == [c, c];
    assert ChList(ch, rest) == Some([c]) && GatherAll(ch, c, rest) == Value([c]);
  }

  lemma SumOfTwo(a: nat, b: nat)
    ensures Sum([a, b]) == a + b
  {
    assert [a, b][1..] == [b] && [b][1..] == [];
    assert Sum([b]) == b;
  }

  /** Tensors joined along their batch are recorded as if their channels added up. */
  lemma JoinRecordedWrong()
    ensures var layers := [CONV16, JOIN_BATCH];
            && ValidFroms(Froms(layers), 2) && Planned(layers, 255, 1.0, 1.0, [3], 2).Some?
            && Outs(Planned(layers, 255, 1.0, 1.0, [3], 2).value) == [16, 32]
            && Real(layers, 255, 1.0, 1.0, 3, 2) == [16, 16]
  {
    var layers := [CONV16, JOIN_BATCH];
    ReadTwice([16], [-1, -1]);
    SumOfTwo(16, 16);
    var a := FirstRest(layers, Built(Cat(0), [], 32, 1, None));
    FirstThen(layers, 16);
  }

  /** A module of the else branch that changes the channels (nn.Conv2d) is recorded as keeping them. */
  lemma OtherRecordedWrong()
    ensures var layers := [CONV16, PLAIN_CONV8];
            && ValidFroms(Froms(layers), 2) && Planned(layers, 255, 1.0, 1.0, [3], 2).Some?
            && Outs(Planned(layers, 255, 1.0, 1.0, [3], 2).value) == [16, 16]
            && Real(layers, 255, 1.0, 1.0, 3, 2) == [16, 8]
  {
    var layers := [CONV16, PLAIN_CONV8];
    assert Named([16], One(-1)) == Some(Single(16));
    var a := FirstRest(layers, Built(PLAIN_CONV8.kind, [], 16, 1, None));
    FirstThen(layers, 8);
  }

  /** A Ghost layer of an odd `no` of outputs yields one channel fewer than recorded, and the layer behind it is
      built for more than it is fed. */
  lemma GhostRecordedWrong()
    ensures var layers := [GHOST255, CONV16];
            && ValidFroms(Froms(layers), 2) && Planned(layers, 255, 1.0, 1.0, [3], 2).Some?
            && Outs(Planned(layers, 255, 1.0, 1.0, [3], 2).value) == [255, 16]
            && Real(layers, 255, 1.0, 1.0, 3, 2) == [254, 16]
            && Planned(layers, 255, 1.0, 1.0, [3], 2).value[1].ins == [255]
            && Fed(layers, 255, 1.0, 1.0, 3, 1) == Value(Single(254))
  {
    GhostPlanned([GHOST255, CONV16]);
    GhostReal([GHOST255, CONV16]);
  }

  lemma GhostPlanned(layers: seq<Layer>)
    requires layers == [GHOST255, CONV16]
    ensures Planned(layers, 255, 1.0, 1.0, [3], 2).Some?
    ensures var bs := Planned(layers, 255, 1.0, 1.0, [3], 2).value; Outs(bs) == [255, 16] && bs[1].ins == [255]
  {
    Eights();
    var a, b := Built(Ghost(255), [3], 255, 1, None), Built(CONV16.kind, [255], 16, 1, None);
    assert Named([3], One(-1)) == Some(Single(3)) && Named([255], One(-1)) == Some(Single(255));
    PlanStep(layers, [3], 0, [], a);
    assert [] + [a] == [a] && Outs([a]) == [255];
    PlanStep(layers, [3], 1, [a], b);
    assert [a] + [b] == [a, b] && Outs([a, b]) == [255, 16];
  }

  lemma GhostReal(layers: seq<Layer>)
    requires layers == [GHOST255, CONV16] && ValidFroms(Froms(layers), 2)
    ensures Real(layers, 255, 1.0, 1.0, 3, 2) == [254, 16] && Fed(layers, 255, 1.0, 1.0, 3, 1) == Value(Single(254))
  {
    Eights();
    RealExtends(layers, 255, 1.0, 1.0, 3, 1);
    RealExtends(layers, 255, 1.0, 1.0, 3, 2);
  }
}
