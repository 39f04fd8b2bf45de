/** From correct predictions to average precision (yolov5/utils/metrics.py, `ap_per_class`, `compute_ap`),
    over exact reals.  Numpy's sorts are parameters. */
module AveragePrecision {
  import opened Numbers

  /** The default of `ap_per_class`. */
  const EPS: Epsilon := 0.0000000000000001

  type Epsilon = e: real | e >= 0.0 witness 0.0

  // ---- compute_ap ----

  function Flip(s: seq<real>): (r: seq<real>)
    ensures |r| == |s| && forall i :: 0 <= i < |s| ==> r[i] == s[|s| - 1 - i]
  {
    if s == [] then [] else [s[|s| - 1]] + Flip(s[..|s| - 1])
  }

  /** `np.maximum.accumulate`. */
  function Accumulate(s: seq<real>): (r: seq<real>)
    ensures |r| == |s|
  {
    if |s| <= 1 then s
    else
      var front := Accumulate(s[..|s| - 1]);
      front + [Max(front[|s| - 2], s[|s| - 1])]
  }

  function Envelope(s: seq<real>): (r: seq<real>)
    ensures |r| == |s|
  {
    Flip(Accumulate(Flip(s)))
  }

  predicate NonIncreasing(s: seq<real>) { forall i, j :: 0 <= i <= j < |s| ==> s[i] >= s[j] }
  predicate NonDecreasing(s: seq<real>) { forall i, j :: 0 <= i <= j < |s| ==> s[i] <= s[j] }
  predicate Above(g: seq<real>, s: seq<real>) { |g| == |s| && forall i :: 0 <= i < |s| ==> g[i] >= s[i] }
  predicate Within(s: seq<real>, lo: real, hi: real) { forall i :: 0 <= i < |s| ==> lo <= s[i] <= hi }

  /** A running maximum is a value seen so far, and the greatest. */
  lemma {:induction false} AccumulateIs(s: seq<real>, i: nat)
    requires i < |s|
    ensures forall k :: 0 <= k <= i ==> s[k] <= Accumulate(s)[i]
    ensures exists k :: 0 <= k <= i && s[k] == Accumulate(s)[i]
  {
    var front := s[..|s| - 1];
    if |s| > 1 {
      if i < |s| - 1 {
        AccumulateIs(front, i);
        var k :| 0 <= k <= i && front[k] == Accumulate(front)[i];
        assert s[k] == front[k];
        assert forall k :: 0 <= k <= i ==> s[k] == front[k];
      } else {
        AccumulateIs(front, i - 1);
        var k :| 0 <= k <= i - 1 && front[k] == Accumulate(front)[i - 1];
        assert s[k] == front[k];
        assert forall k :: 0 <= k < i ==> s[k] == front[k];
      }
    }
  }

  /** An envelope value is a value of the curve from there on, and the greatest. */
  lemma EnvelopeIs(s: seq<real>, i: nat)
    requires i < |s|
    ensures forall k :: i <= k < |s| ==> s[k] <= Envelope(s)[i]
    ensures exists k :: i <= k < |s| && s[k] == Envelope(s)[i]
  {
    var f, n := Flip(s), |s|;
    AccumulateIs(f, n - 1 - i);
    forall k | i <= k < n
      ensures s[k] <= Envelope(s)[i]
    {
      assert f[n - 1 - k] == s[k];
    }
    var k :| 0 <= k <= n - 1 - i && f[k] == Accumulate(f)[n - 1 - i];
    assert s[n - 1 - k] == f[k];
  }

  /** The envelope is on or above the precision and non-increasing ... */
  lemma EnvelopeBounds(s: seq<real>)
    ensures NonIncreasing(Envelope(s)) && Above(Envelope(s), s)
  {
    forall i | 0 <= i < |s|
      ensures Envelope(s)[i] >= s[i]
    {
      EnvelopeIs(s, i);
    }
    forall i, j | 0 <= i <= j < |s|
      ensures Envelope(s)[i] >= Envelope(s)[j]
    {
      EnvelopeFalls(s, i, j);
    }
  }

  lemma EnvelopeFalls(s: seq<real>, i: nat, j: nat)
    requires i <= j < |s|
    ensures Envelope(s)[i] >= Envelope(s)[j]
  {
    EnvelopeIs(s, i);
    EnvelopeIs(s, j);
    var k :| j <= k < |s| && s[k] == Envelope(s)[j];
    assert s[k] <= Envelope(s)[i];
  }

  /** ... and the least such curve. */
  lemma EnvelopeIsLeast(s: seq<real>, g: seq<real>)
    requires NonIncreasing(g) && Above(g, s)
    ensures Above(g, Envelope(s))
  {
    forall i | 0 <= i < |s|
      ensures g[i] >= Envelope(s)[i]
    {
      EnvelopeIs(s, i);
    }
  }

  /** The last index with `xp[j] <= x`, or -1. */
  function Find(xp: seq<real>, x: real): (j: int)
    ensures -1 <= j < |xp| && (j >= 0 ==> xp[j] <= x)
    ensures forall k :: j < k < |xp| ==> xp[k] > x
  {
    if xp == [] then -1 else if xp[|xp| - 1] <= x then |xp| - 1 else Find(xp[..|xp| - 1], x)
  }

  function Line(x: real, x0: real, x1: real, y0: real, y1: real): real
    requires x0 < x1
  {
    (y1 - y0) / (x1 - x0) * (x - x0) + y0
  }

  /** `np.interp`. */
  function Interp(x: real, xp: seq<real>, fp: seq<real>): real
    requires |xp| == |fp| > 0
  {
    var j := Find(xp, x);
    if j == -1 then fp[0]
    else if j == |xp| - 1 || xp[j] == x then fp[j]
    else Line(x, xp[j], xp[j + 1], fp[j], fp[j + 1])
  }

  lemma LineBetween(x: real, x0: real, x1: real, y0: real, y1: real)
    requires x0 < x < x1 && y1 <= y0
    ensures y1 <= Line(x, x0, x1, y0, y1) <= y0
    ensures Line(x, x0, x1, y0, y1) == y0 ==> y1 == y0
    ensures y0 == y1 ==> Line(x, x0, x1, y0, y1) == y0
  {
    var t, d := (x - x0) / (x1 - x0), y0 - y1;
    Fraction(x - x0, x1 - x0);
    LineAs(x, x0, x1, y0, y1);
    Scaled(t, d);
  }

  lemma Fraction(a: real, b: real)
    requires 0.0 < a < b
    ensures 0.0 < a / b < 1.0
  {
    var t := a / b;
    assert t * b == a;
    if t <= 0.0 { ScaleReal(0.0, -t, b); assert false; }
    if t >= 1.0 { ScaleReal(0.0, t - 1.0, b); assert false; }
  }

  lemma LineAs(x: real, x0: real, x1: real, y0: real, y1: real)
    requires x0 < x1
    ensures Line(x, x0, x1, y0, y1) == y0 - (x - x0) / (x1 - x0) * (y0 - y1)
  {
    var a, b, d := x - x0, x1 - x0, y0 - y1;
    assert (y1 - y0) / b == -(d / b);
    var t, u := a / b, d / b;
    assert t * b == a && u * b == d;
    assert u * a == u * (t * b) == t * (u * b) == t * d;
  }

  lemma Scaled(t: real, d: real)
    requires 0.0 < t < 1.0 && d >= 0.0
    ensures 0.0 <= t * d <= d
    ensures t * d == 0.0 ==> d == 0.0
  {
    ScaleReal(0.0, t, d);
    ScaleReal(0.0, 1.0 - t, d);
    assert (1.0 - t) * d == d - t * d;
  }

  /** Between two neighbouring points the value lies on the line through them ... */
  lemma InterpOnChord(x: real, xp: seq<real>, fp: seq<real>, j: nat)
    requires j + 1 < |xp| == |fp| && NonDecreasing(xp) && xp[j] <= x < xp[j + 1]
    ensures (Interp(x, xp, fp) - fp[j]) * (xp[j + 1] - xp[j]) == (fp[j + 1] - fp[j]) * (x - xp[j])
  {
    FindIs(xp, x, j);
    if xp[j] != x {
      OnLine(x, xp[j], xp[j + 1], fp[j], fp[j + 1]);
    }
  }

  lemma FindIs(xp: seq<real>, x: real, j: nat)
    requires j + 1 < |xp| && NonDecreasing(xp) && xp[j] <= x < xp[j + 1]
    ensures Find(xp, x) == j
  {
    if Find(xp, x) > j { assert false; }
  }

  lemma OnLine(x: real, x0: real, x1: real, y0: real, y1: real)
    requires x0 < x1
    ensures (Line(x, x0, x1, y0, y1) - y0) * (x1 - x0) == (y1 - y0) * (x - x0)
  {
    var b, d, a := x1 - x0, y1 - y0, x - x0;
    var u := d / b;
    assert u * b == d;
    assert u * a * b == u * b * a;
  }

  /** ... and outside of the points it is that of the first or the last. */
  lemma InterpOutside(x: real, xp: seq<real>, fp: seq<real>)
    requires |xp| == |fp| > 0 && NonDecreasing(xp)
    ensures x < xp[0] ==> Interp(x, xp, fp) == fp[0]
    ensures x >= xp[|xp| - 1] ==> Interp(x, xp, fp) == fp[|fp| - 1]
  {
    if x < xp[0] {
      assert forall k :: 0 <= k < |xp| ==> xp[k] >= xp[0];
    }
  }

  function Mrec(recall: seq<real>): seq<real> { [0.0] + recall + [1.0] }
  function Mpre(precision: seq<real>): seq<real> { [1.0] + precision + [0.0] }

  /** The precision at the 101 recalls 0, 0.01, ..., 1. */
  function Sampled(recall: seq<real>, precision: seq<real>): (y: seq<real>)
    requires |recall| == |precision|
    ensures |y| == 101
  {
    var mrec, mpre := Mrec(recall), Envelope(Mpre(precision));
    seq(101, i requires 0 <= i < 101 => Interp(i as real / 100.0, mrec, mpre))
  }

  /** `np.trapz` of the first `n` steps of 0.01. */
  function Trapz(y: seq<real>, n: nat): real
    requires n < |y|
  {
    if n == 0 then 0.0 else Trapz(y, n - 1) + (y[n - 1] + y[n]) / 2.0 * 0.01
  }

  function ComputeAp(recall: seq<real>, precision: seq<real>): real
    requires |recall| == |precision|
  {
    Trapz(Sampled(recall, precision), 100)
  }

  function Sum(y: seq<real>, n: nat): real
    requires n <= |y|
  {
    if n == 0 then 0.0 else Sum(y, n - 1) + y[n - 1]
  }

  lemma {:induction false} TrapzIsSum(y: seq<real>, n: nat)
    requires n < |y|
    ensures Trapz(y, n) == (Sum(y, n + 1) - (y[0] + y[n]) / 2.0) / 100.0
  {
    if n > 0 { TrapzIsSum(y, n - 1); }
  }

  /** An average precision is a hundredth of the sum of the 101 samples, the first and the last counting half. */
  lemma ApIsSum(recall: seq<real>, precision: seq<real>)
    requires |recall| == |precision|
    ensures var y := Sampled(recall, precision);
            ComputeAp(recall, precision) == (Sum(y, 101) - (y[0] + y[100]) / 2.0) / 100.0
  {
    TrapzIsSum(Sampled(recall, precision), 100);
  }

  /** The curve of predictions that are all right but find only the part `m / 100` of the labels: precision 1 up to
      there, and from there a straight line down to 0. */
  lemma CornerSample(m: nat, i: nat)
    requires 0 < m < 100 && i <= 100
    ensures OnCorner(m, i, Sampled([m as real / 100.0], [1.0])[i])
  {
    var x, r := i as real / 100.0, m as real / 100.0;
    var mrec, mpre := Mrec([r]), Envelope(Mpre([1.0]));
    CornerEnvelope();
    assert mrec == [0.0, r, 1.0];
    CornerAt(m, i, mrec, mpre);
  }

  lemma CornerAt(m: nat, i: nat, mrec: seq<real>, mpre: seq<real>)
    requires 0 < m < 100 && i <= 100 && mrec == [0.0, m as real / 100.0, 1.0] && mpre == [1.0, 1.0, 0.0]
    ensures OnCorner(m, i, Interp(i as real / 100.0, mrec, mpre))
  {
    var x, r := i as real / 100.0, m as real / 100.0;
    if i < m {
      InterpOnChord(x, mrec, mpre, 0);
      Flat(Interp(x, mrec, mpre), x, r);
    } else if i < 100 {
      InterpOnChord(x, mrec, mpre, 1);
      Falling(Interp(x, mrec, mpre), m, i);
    } else {
      InterpOutside(x, mrec, mpre);
    }
  }

  lemma Flat(v: real, x: real, r: real)
    requires r > 0.0 && (v - 1.0) * (r - 0.0) == (1.0 - 1.0) * (x - 0.0)
    ensures v == 1.0
  {
    ZeroFactor(v - 1.0, r);
  }

  lemma Falling(v: real, m: nat, i: nat)
    requires m < 100
    requires var r, x := m as real / 100.0, i as real / 100.0; (v - 1.0) * (1.0 - r) == (0.0 - 1.0) * (x - r)
    ensures v * (100 - m) as real == (100 - i) as real
    ensures i == m ==> v == 1.0
  {
    var r, x := m as real / 100.0, i as real / 100.0;
    assert v * (1.0 - r) == 1.0 - x;
    assert (100 - m) as real == 100.0 * (1.0 - r);
    assert v * (100.0 * (1.0 - r)) == 100.0 * (v * (1.0 - r));
    if i == m {
      ZeroFactor(v - 1.0, 1.0 - r);
    }
  }

  lemma CornerEnvelope()
    ensures Envelope(Mpre([1.0])) == [1.0, 1.0, 0.0]
  {
    var s := Mpre([1.0]);
    assert s == [1.0, 1.0, 0.0];
    EnvelopeIs(s, 0);
    EnvelopeIs(s, 1);
    EnvelopeIs(s, 2);
    assert Envelope(s)[0] >= s[0] && Envelope(s)[1] >= s[1] && Envelope(s)[2] >= s[2];
  }

  /** `v` at sample `n` of that curve, and the area `a` up to there. */
  predicate OnCorner(m: nat, n: nat, v: real) {
    if n <= m then v == 1.0 else v * (100 - m) as real == (100 - n) as real
  }

  predicate UnderCorner(m: nat, n: nat, a: real) {
    if n <= m then a == n as real / 100.0
    else a * (200 * (100 - m)) as real ==
         (2 * m * (100 - m) + (100 - m) * (100 - m) - (100 - n) * (100 - n)) as real
  }

  lemma UnderNext(m: nat, n: nat, a: real, v0: real, v1: real)
    requires m < 100 && n < 100 && UnderCorner(m, n, a) && OnCorner(m, n, v0) && OnCorner(m, n + 1, v1)
    ensures UnderCorner(m, n + 1, a + (v0 + v1) / 2.0 * 0.01)
  {
    if n >= m {
      var d := (100 - m) as real;
      var s := (200 * (100 - m)) as real;
      assert s == 200.0 * d;
      assert (a + (v0 + v1) / 2.0 * 0.01) * s == a * s + v0 * d + v1 * d;
      assert v0 * d == (100 - n) as real;
      assert v1 * d == (99 - n) as real;
      if n == m {
        assert a * s == (2 * m * (100 - m)) as real;
      }
      assert (100 - n) * (100 - n) - (99 - n) * (99 - n) == (100 - n) + (99 - n);
    }
  }

  lemma {:induction false} CornerTrapz(m: nat, n: nat)
    requires 0 < m < 100 && n <= 100
    ensures UnderCorner(m, n, Trapz(Sampled([m as real / 100.0], [1.0]), n))
  {
    if n > 0 {
      var y := Sampled([m as real / 100.0], [1.0]);
      CornerTrapz(m, n - 1);
      CornerSample(m, n - 1);
      CornerSample(m, n);
      UnderNext(m, n - 1, Trapz(y, n - 1), y[n - 1], y[n]);
    }
  }

  /** Its average precision. */
  lemma CornerAp(m: nat)
    requires 0 < m < 100
    ensures ComputeAp([m as real / 100.0], [1.0]) == (1.0 + m as real / 100.0) / 2.0
  {
    CornerTrapz(m, 100);
    WholeCorner(m, ComputeAp([m as real / 100.0], [1.0]));
  }

  lemma WholeCorner(m: nat, a: real)
    requires m < 100 && UnderCorner(m, 100, a)
    ensures a == (1.0 + m as real / 100.0) / 2.0
  {
    var d := (100 - m) as real;
    assert 2 * m * (100 - m) + (100 - m) * (100 - m) == (100 + m) * (100 - m);
    assert a * (200.0 * d) == (100 + m) as real * d;
    assert (a * 200.0 - (100 + m) as real) * d == a * (200.0 * d) - (100 + m) as real * d;
    ZeroFactor(a * 200.0 - (100 + m) as real, d);
  }

  predicate Curves(recall: seq<real>, precision: seq<real>) {
    |recall| == |precision| && NonDecreasing(recall) && Within(recall, 0.0, 1.0) && Within(precision, 0.0, 1.0)
  }

  lemma EnvelopeWithin(precision: seq<real>)
    requires Within(precision, 0.0, 1.0)
    ensures Within(Envelope(Mpre(precision)), 0.0, 1.0)
  {
    var s := Mpre(precision);
    forall i | 0 <= i < |s|
      ensures 0.0 <= Envelope(s)[i] <= 1.0
    {
      EnvelopeIs(s, i);
    }
  }

  lemma InterpWithin(x: real, xp: seq<real>, fp: seq<real>)
    requires |xp| == |fp| > 0 && NonIncreasing(fp) && Within(fp, 0.0, 1.0)
    ensures 0.0 <= Interp(x, xp, fp) <= 1.0
  {
    var j := Find(xp, x);
    if 0 <= j < |xp| - 1 && xp[j] != x {
      LineBetween(x, xp[j], xp[j + 1], fp[j], fp[j + 1]);
    }
  }

  lemma SampledWithin(recall: seq<real>, precision: seq<real>)
    requires Curves(recall, precision)
    ensures Within(Sampled(recall, precision), 0.0, 1.0)
    ensures Sampled(recall, precision)[100] == 0.0
  {
    var mrec, s := Mrec(recall), Mpre(precision);
    var mpre := Envelope(s);
    EnvelopeWithin(precision);
    EnvelopeBounds(s);
    forall i | 0 <= i < 101
      ensures 0.0 <= Sampled(recall, precision)[i] <= 1.0
    {
      InterpWithin(i as real / 100.0, mrec, mpre);
    }
    assert Find(mrec, 1.0) == |mrec| - 1;
    EnvelopeIs(s, |s| - 1);
  }

  lemma {:induction false} TrapzWithin(y: seq<real>, n: nat)
    requires n < |y| && Within(y, 0.0, 1.0)
    ensures 0.0 <= Trapz(y, n) <= 0.01 * n as real
    ensures (forall i :: 0 <= i <= n ==> y[i] == 1.0) ==> Trapz(y, n) == 0.01 * n as real
  {
    if n > 0 {
      TrapzWithin(y, n - 1);
    }
  }

  /** An average precision is never above 0.995: the last of the 101 samples is always zero. */
  lemma ApWithin(recall: seq<real>, precision: seq<real>)
    requires Curves(recall, precision)
    ensures 0.0 <= ComputeAp(recall, precision) <= 0.995
  {
    var y := Sampled(recall, precision);
    SampledWithin(recall, precision);
    TrapzWithin(y, 99);
  }

  /** Precision is still 1 at the last point with recall 0.99, or beyond. */
  predicate CleanAt(recall: seq<real>, precision: seq<real>, k: nat)
    requires |recall| == |precision|
  {
    k < |recall| && precision[k] == 1.0 && recall[k] >= 0.99 && (k + 1 < |recall| ==> recall[k + 1] > 0.99)
  }

  ghost predicate Clean(recall: seq<real>, precision: seq<real>)
    requires |recall| == |precision|
  {
    exists k: nat :: CleanAt(recall, precision, k)
  }

  lemma FullUpTo(precision: seq<real>, k: nat)
    requires Within(precision, 0.0, 1.0) && k < |precision| && precision[k] == 1.0
    ensures forall h :: 0 <= h <= k + 1 ==> Envelope(Mpre(precision))[h] == 1.0
  {
    var s := Mpre(precision);
    EnvelopeWithin(precision);
    assert s[k + 1] == 1.0;
    forall h | 0 <= h <= k + 1
      ensures Envelope(s)[h] == 1.0
    {
      EnvelopeIs(s, h);
      assert Envelope(s)[h] >= s[k + 1];
    }
  }

  lemma FullBelow(x: real, xp: seq<real>, fp: seq<real>, k: nat)
    requires k < |xp| == |fp| && NonDecreasing(xp) && xp[0] <= x <= xp[k] && (k + 1 < |xp| ==> xp[k + 1] > x)
    requires forall h :: 0 <= h <= k ==> fp[h] == 1.0
    ensures Interp(x, xp, fp) == 1.0
  {
    var j := Find(xp, x);
    assert 0 <= j <= k;
    if j < k && xp[j] != x {
      LineBetween(x, xp[j], xp[j + 1], fp[j], fp[j + 1]);
    }
  }

  lemma CleanSample(recall: seq<real>, precision: seq<real>, k: nat, i: nat)
    requires Curves(recall, precision) && CleanAt(recall, precision, k) && i <= 99
    ensures Sampled(recall, precision)[i] == 1.0
  {
    FullUpTo(precision, k);
    MrecRises(recall);
    var mrec := Mrec(recall);
    assert mrec[k + 2] > 0.99;
    FullBelow(i as real / 100.0, mrec, Envelope(Mpre(precision)), k + 1);
  }

  lemma MrecRises(recall: seq<real>)
    requires NonDecreasing(recall) && Within(recall, 0.0, 1.0)
    ensures NonDecreasing(Mrec(recall))
  {}

  /** A full sample at recall 0.99 comes from full precision there or beyond. */
  lemma FullSample(recall: seq<real>, precision: seq<real>)
    requires Curves(recall, precision) && Sampled(recall, precision)[99] == 1.0
    ensures Clean(recall, precision)
  {
    var x := 0.99;
    var mrec, s := Mrec(recall), Mpre(precision);
    var mpre := Envelope(s);
    EnvelopeWithin(precision);
    EnvelopeBounds(s);
    MrecRises(recall);
    var j := Find(mrec, x);
    assert mrec[0] == 0.0 <= x && mrec[|mrec| - 1] == 1.0;
    assert 0 <= j < |mrec| - 1;
    var first := if mrec[j] == x then j else j + 1;
    if mrec[j] != x {
      LineBetween(x, mrec[j], mrec[j + 1], mpre[j], mpre[j + 1]);
    }
    assert mpre[first] == 1.0;
    EnvelopeIs(s, first);
    var k :| first <= k < |s| && s[k] == mpre[first];
    assert 0 < k < |s| - 1 && mrec[k + 1] > x;
    assert CleanAt(recall, precision, k - 1);
  }

  /** The greatest score is reached exactly by clean rankings. */
  lemma BestScoreIffClean(recall: seq<real>, precision: seq<real>)
    requires Curves(recall, precision)
    ensures ComputeAp(recall, precision) == 0.995 <==> Clean(recall, precision)
  {
    var y := Sampled(recall, precision);
    SampledWithin(recall, precision);
    TrapzWithin(y, 99);
    assert Trapz(y, 100) == Trapz(y, 99) + (y[99] + y[100]) / 2.0 * 0.01;
    if Clean(recall, precision) {
      var k: nat :| CleanAt(recall, precision, k);
      forall i | 0 <= i <= 99
        ensures y[i] == 1.0
      {
        CleanSample(recall, precision, k, i);
      }
    } else if y[99] == 1.0 {
      FullSample(recall, precision);
    }
  }

  // ---- ap_per_class: cumulative curves ----

  /** True, and false, positives among the first `k`. */
  function Trues(flags: seq<bool>, k: nat): nat
    requires k <= |flags|
  {
    if k == 0 then 0 else Trues(flags, k - 1) + if flags[k - 1] then 1 else 0
  }

  function Falses(flags: seq<bool>, k: nat): nat
    requires k <= |flags|
  {
    if k == 0 then 0 else Falses(flags, k - 1) + if flags[k - 1] then 0 else 1
  }

  function Ratio(a: nat, b: real): real
    requires b > 0.0
  {
    a as real / b
  }

  function Recall(flags: seq<bool>, nl: nat, eps: Epsilon): (r: seq<real>)
    requires nl as real + eps > 0.0
    ensures |r| == |flags|
  {
    seq(|flags|, k requires 0 <= k < |flags| => Ratio(Trues(flags, k + 1), nl as real + eps))
  }

  lemma {:induction false} CountsAdd(flags: seq<bool>, k: nat)
    requires k <= |flags|
    ensures Trues(flags, k) + Falses(flags, k) == k
  {
    if k > 0 { CountsAdd(flags, k - 1); }
  }

  function Precision(flags: seq<bool>): (p: seq<real>)
    ensures |p| == |flags|
  {
    seq(|flags|, k requires 0 <= k < |flags| =>
      var tpc, fpc := Trues(flags, k + 1), Falses(flags, k + 1);
      CountsAdd(flags, k + 1);
      Ratio(tpc, (tpc + fpc) as real))
  }

  /** Hits among the first `k` ranks. */
  function HitsIn(flags: seq<bool>, k: nat): set<nat> { set i: nat | i < k && i < |flags| && flags[i] }

  lemma {:induction false} TruesCount(flags: seq<bool>, k: nat)
    requires k <= |flags|
    ensures Trues(flags, k) == |HitsIn(flags, k)|
  {
    if k == 0 {
      assert HitsIn(flags, 0) == {};
    } else {
      TruesCount(flags, k - 1);
      var before := HitsIn(flags, k - 1);
      assert HitsIn(flags, k) == if flags[k - 1] then before + {k - 1} else before;
    }
  }

  lemma RatioTimes(a: nat, d: real)
    requires d > 0.0
    ensures Ratio(a, d) * d == a as real
  {
  }

  /** After the first `k + 1` predictions, recall is the share of the labels they found ... */
  lemma RecallIs(flags: seq<bool>, nl: nat, eps: Epsilon, k: nat)
    requires k < |flags| && nl as real + eps > 0.0
    ensures Recall(flags, nl, eps)[k] * (nl as real + eps) == |HitsIn(flags, k + 1)| as real
  {
    var r, t := Recall(flags, nl, eps)[k], Trues(flags, k + 1);
    TruesCount(flags, k + 1);
    assert r == Ratio(t, nl as real + eps);
    RatioTimes(t, nl as real + eps);
  }

  /** ... and precision the share of them that are right. */
  lemma PrecisionIs(flags: seq<bool>, k: nat)
    requires k < |flags|
    ensures Precision(flags)[k] * (k + 1) as real == |HitsIn(flags, k + 1)| as real
  {
    TruesCount(flags, k + 1);
    PrecisionAt(flags, k);
    RatioTimes(Trues(flags, k + 1), (k + 1) as real);
  }

  lemma PrecisionAt(flags: seq<bool>, k: nat)
    requires k < |flags|
    ensures Precision(flags)[k] == Ratio(Trues(flags, k + 1), (k + 1) as real)
  {
    CountsAdd(flags, k + 1);
  }

  lemma RatioOrder(a: nat, b: nat, d: real)
    requires d > 0.0 && a <= b
    ensures 0.0 <= Ratio(a, d) <= Ratio(b, d)
  {
    var t, u := Ratio(a, d), Ratio(b, d);
    assert t * d == a as real && u * d == b as real;
    if t < 0.0 { Strict(-t, d); assert false; }
    if t > u { Strict(t - u, d); assert false; }
  }

  lemma Strict(a: real, b: real)
    requires a > 0.0 && b > 0.0
    ensures a * b > 0.0
  {}

  /** A ratio reaches `q` exactly when its numerator reaches `q` times its denominator. */
  lemma RatioCompared(a: nat, d: real, q: real)
    requires d > 0.0
    ensures Ratio(a, d) > q <==> a as real > q * d
    ensures Ratio(a, d) == q <==> a as real == q * d
  {
    var t := Ratio(a, d);
    assert t * d == a as real;
    assert (t - q) * d == a as real - q * d;
    if t > q { Strict(t - q, d); }
    if t < q { Strict(q - t, d); assert (q - t) * d == -((t - q) * d); }
  }

  lemma {:induction false} TruesRise(flags: seq<bool>, i: nat, j: nat)
    requires i <= j <= |flags|
    ensures Trues(flags, i) <= Trues(flags, j)
  {
    if i < j { TruesRise(flags, i, j - 1); }
  }

  lemma RatiosRise(a: nat, b: nat, nl: nat, eps: Epsilon)
    requires a <= b <= nl && nl > 0
    ensures var d := nl as real + eps;
            0.0 <= Ratio(a, d) <= Ratio(b, d) <= 1.0 && (eps > 0.0 ==> Ratio(b, d) < 1.0)
  {
    RatioOrder(a, b, nl as real + eps);
    RatioOrder(b, nl, nl as real + eps);
    AtMostOne(nl, eps);
  }

  lemma RecallRises(flags: seq<bool>, nl: nat, eps: Epsilon, i: nat, j: nat)
    requires Trues(flags, |flags|) <= nl && i <= j < |flags| && nl > 0
    ensures 0.0 <= Recall(flags, nl, eps)[i] <= Recall(flags, nl, eps)[j] <= 1.0
    ensures eps > 0.0 ==> Recall(flags, nl, eps)[j] < 1.0
  {
    TruesRise(flags, i + 1, j + 1);
    TruesRise(flags, j + 1, |flags|);
    RatiosRise(Trues(flags, i + 1), Trues(flags, j + 1), nl, eps);
  }

  lemma AtMostOne(nl: nat, eps: Epsilon)
    requires nl > 0
    ensures Ratio(nl, nl as real + eps) <= 1.0 && (eps > 0.0 ==> Ratio(nl, nl as real + eps) < 1.0)
  {
    RatioCompared(nl, nl as real + eps, 1.0);
  }

  lemma PrecisionWithin(flags: seq<bool>, k: nat)
    requires k < |flags|
    ensures 0.0 <= Precision(flags)[k] <= 1.0
  {
    CountsAdd(flags, k + 1);
    RatioOrder(Trues(flags, k + 1), k + 1, (k + 1) as real);
    assert Ratio(k + 1, (k + 1) as real) == 1.0;
  }

  /** With at most `nl` true positives, recall is non-decreasing and at most 1 (below it unless eps is 0)
      and precision within [0, 1]. */
  lemma CurvesAreSound(flags: seq<bool>, nl: nat, eps: Epsilon)
    requires Trues(flags, |flags|) <= nl && nl > 0
    ensures Curves(Recall(flags, nl, eps), Precision(flags))
    ensures eps > 0.0 ==> forall k :: 0 <= k < |flags| ==> Recall(flags, nl, eps)[k] < 1.0
  {
    var recall, precision := Recall(flags, nl, eps), Precision(flags);
    forall i, j | 0 <= i <= j < |recall|
      ensures 0.0 <= recall[i] <= recall[j] <= 1.0 && (eps > 0.0 ==> recall[j] < 1.0)
    {
      RecallRises(flags, nl, eps, i, j);
    }
    forall k | 0 <= k < |precision|
      ensures 0.0 <= precision[k] <= 1.0
    {
      PrecisionWithin(flags, k);
    }
  }

  /** The first `k` are all true positives. */
  lemma {:induction false} AllTrue(flags: seq<bool>, k: nat)
    requires k <= |flags|
    ensures Trues(flags, k) == k <==> forall i :: 0 <= i < k ==> flags[i]
    ensures Trues(flags, k) <= k
  {
    if k > 0 { AllTrue(flags, k - 1); }
  }

  /** Some prefix holds no false positive and more than 99% of the labels, or exactly 99% if it is all. */
  predicate CleanPrefix(flags: seq<bool>, share: real, k: nat) {
    && 0 < k <= |flags| && (forall i :: 0 <= i < k ==> flags[i])
    && (k as real > share || (k as real == share && k == |flags|))
  }

  /** 99% of the labels, as the recall's denominator counts them. */
  function Share(nl: nat, eps: Epsilon): real { 0.99 * (nl as real + eps) }

  ghost predicate RanksCleanly(flags: seq<bool>, nl: nat, eps: Epsilon) {
    exists k: nat :: CleanPrefix(flags, Share(nl, eps), k)
  }

  lemma PointIs(flags: seq<bool>, nl: nat, eps: Epsilon, k: nat)
    requires k < |flags| && nl > 0
    ensures Recall(flags, nl, eps)[k] >= 0.99 <==> Trues(flags, k + 1) as real >= Share(nl, eps)
    ensures Recall(flags, nl, eps)[k] > 0.99 <==> Trues(flags, k + 1) as real > Share(nl, eps)
    ensures Precision(flags)[k] == 1.0 <==> forall i :: 0 <= i < k + 1 ==> flags[i]
  {
    RatioCompared(Trues(flags, k + 1), nl as real + eps, 0.99);
    CountsAdd(flags, k + 1);
    RatioCompared(Trues(flags, k + 1), (k + 1) as real, 1.0);
    AllTrue(flags, k + 1);
  }

  lemma CleanRanks(flags: seq<bool>, nl: nat, eps: Epsilon, k: nat)
    requires nl > 0 && CleanAt(Recall(flags, nl, eps), Precision(flags), k)
    ensures RanksCleanly(flags, nl, eps)
  {
    PointIs(flags, nl, eps, k);
    AllTrue(flags, k + 1);
    if (k + 1) as real > Share(nl, eps) || k + 1 == |flags| {
      assert CleanPrefix(flags, Share(nl, eps), k + 1);
    } else {
      PointIs(flags, nl, eps, k + 1);
      AllTrue(flags, k + 2);
      assert Trues(flags, k + 2) as real > (k + 1) as real;
      assert CleanPrefix(flags, Share(nl, eps), k + 2);
    }
  }

  lemma RanksClean(flags: seq<bool>, nl: nat, eps: Epsilon, k: nat)
    requires nl > 0 && CleanPrefix(flags, Share(nl, eps), k)
    ensures CleanAt(Recall(flags, nl, eps), Precision(flags), k - 1)
  {
    PointIs(flags, nl, eps, k - 1);
    AllTrue(flags, k);
    if k < |flags| {
      TruesRise(flags, k, k + 1);
      PointIs(flags, nl, eps, k);
    }
  }

  /** A class scores 0.995 exactly when its ranking starts with more than 99% of its labels and no false
      positive, or consists of exactly 99% of them. */
  lemma ClassScore(flags: seq<bool>, nl: nat, eps: Epsilon)
    requires 0 < nl && Trues(flags, |flags|) <= nl
    ensures var ap := ComputeAp(Recall(flags, nl, eps), Precision(flags));
            0.0 <= ap <= 0.995 && (ap == 0.995 <==> RanksCleanly(flags, nl, eps))
  {
    var recall, precision := Recall(flags, nl, eps), Precision(flags);
    CurvesAreSound(flags, nl, eps);
    ApWithin(recall, precision);
    BestScoreIffClean(recall, precision);
    if k: nat :| CleanAt(recall, precision, k) {
      CleanRanks(flags, nl, eps, k);
    }
    if k: nat :| CleanPrefix(flags, Share(nl, eps), k) {
      RanksClean(flags, nl, eps, k);
    }
  }

  /** With the default eps of 1e-16 only "more than 99%" counts; where floating point absorbs it, as with
      eps = 0, a ranking of exactly 99% and nothing else does too. */
  lemma ShareIs(flags: seq<bool>, nl: nat, k: nat)
    ensures CleanPrefix(flags, Share(nl, EPS), k) <==>
              0 < k <= |flags| && 100 * k > 99 * nl && forall i :: 0 <= i < k ==> flags[i]
    ensures CleanPrefix(flags, Share(nl, 0.0), k) <==>
              && 0 < k <= |flags| && (forall i :: 0 <= i < k ==> flags[i])
              && (100 * k > 99 * nl || (100 * k == 99 * nl && k == |flags|))
  {
    OffGrid(k, nl);
  }

  lemma OffGrid(t: nat, nl: nat)
    ensures t as real != Share(nl, EPS) && (t as real > Share(nl, EPS) <==> 100 * t > 99 * nl)
    ensures t as real > Share(nl, 0.0) <==> 100 * t > 99 * nl
    ensures t as real == Share(nl, 0.0) <==> 100 * t == 99 * nl
  {
    assert 100.0 * Share(nl, EPS) == (99 * nl) as real + 99.0 * EPS;
    assert 100.0 * Share(nl, 0.0) == (99 * nl) as real;
    assert 100.0 * t as real == (100 * t) as real;
    assert 0.0 < 99.0 * EPS < 1.0;
    if 100 * t > 99 * nl {
      assert (100 * t) as real >= (99 * nl + 1) as real;
    } else {
      assert (100 * t) as real <= (99 * nl) as real;
    }
  }
}
