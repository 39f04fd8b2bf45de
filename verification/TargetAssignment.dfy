/** Assigning labelled boxes to grid cells (yolov5/utils/loss.py, `build_targets`), and what the box decoder
    can reach, over exact reals. */
module TargetAssignment {
  import opened IndexSets
  import opened Numbers

  /** A label; centre and size are fractions of the image. */
  datatype Target = Target(image: nat, cls: nat, x: real, y: real, w: real, h: real) {
    predicate Valid() { 0.0 <= x <= 1.0 && 0.0 <= y <= 1.0 && w >= 0.0 && h >= 0.0 }
  }

  datatype Anchor = Anchor(w: real, h: real)

  /** A detection layer: its grid and its anchors in grid units. */
  datatype Grid = Grid(nx: nat, ny: nat, anchors: seq<Anchor>) {
    predicate Valid() {
      nx > 0 && ny > 0 && forall a :: 0 <= a < |anchors| ==> anchors[a].w > 0.0 && anchors[a].h > 0.0
    }
  }

  /** A target in grid units, for one anchor. */
  datatype Row = Row(image: nat, cls: nat, gx: real, gy: real, gw: real, gh: real, a: nat)

  /** One assignment: the cell, and the box relative to it. */
  datatype Entry = Entry(image: nat, cls: nat, a: nat, gj: nat, gi: nat, tx: real, ty: real, tw: real, th: real)

  // ---- Matching sizes ----

  function Scaled(t: Target, g: Grid, a: nat): Row {
    Row(t.image, t.cls, Times(t.x, g.nx as real), Times(t.y, g.ny as real),
        Times(t.w, g.nx as real), Times(t.h, g.ny as real), a)
  }

  /** `max(r, 1 / r) < anchor_t` for r = size / anchor; at size 0 the inverse is infinite. */
  predicate RatioFits(size: real, anchor: real, limit: real)
    requires anchor > 0.0 && size >= 0.0
  {
    size > 0.0 && size / anchor < limit && anchor / size < limit
  }

  predicate Matches(r: Row, g: Grid, limit: real)
    requires g.Valid() && r.a < |g.anchors| && r.gw >= 0.0 && r.gh >= 0.0
  {
    RatioFits(r.gw, g.anchors[r.a].w, limit) && RatioFits(r.gh, g.anchors[r.a].h, limit)
  }

  // ---- Cells ----

  function Frac(x: real): real { x - x.Floor as real }

  /** `.long()`. */
  function Trunc(x: real): int { if x >= 0.0 then x.Floor else -(-x).Floor }

  /** `clamp_(0, n - 1)`. */
  function Clamp(k: int, n: nat): nat
    requires n > 0
  {
    if k < 0 then 0 else if k > n - 1 then n - 1 else k
  }

  /** Is the centre in the lower, or upper, half of its cell and not in the grid's first, or last, cell? */
  predicate Low(g: real) { Frac(g) < 0.5 && g > 1.0 }
  predicate High(g: real, n: nat) { Frac(n as real - g) < 0.5 && n as real - g > 1.0 }

  /** The five copies of a matched row: itself, then left, up, right, down. */
  predicate Mask(m: nat, r: Row, g: Grid) {
    if m == 0 then true else if m == 1 then Low(r.gx) else if m == 2 then Low(r.gy)
    else if m == 3 then High(r.gx, g.nx) else m == 4 && High(r.gy, g.ny)
  }

  function OffX(m: nat): real { if m == 1 then 0.5 else if m == 3 then -0.5 else 0.0 }
  function OffY(m: nat): real { if m == 2 then 0.5 else if m == 4 then -0.5 else 0.0 }

  function CellX(m: nat, r: Row, g: Grid): nat
    requires g.Valid()
  {
    Clamp(Trunc(r.gx - OffX(m)), g.nx)
  }

  function CellY(m: nat, r: Row, g: Grid): nat
    requires g.Valid()
  {
    Clamp(Trunc(r.gy - OffY(m)), g.ny)
  }

  /** The clamp is in place, so the box is relative to the clamped cell. */
  function Assign(m: nat, r: Row, g: Grid): Entry
    requires g.Valid()
  {
    var gi, gj := CellX(m, r, g), CellY(m, r, g);
    Entry(r.image, r.cls, r.a, gj, gi, r.gx - gi as real, r.gy - gj as real, r.gw, r.gh)
  }

  // ---- build_targets ----

  function Flatten<T>(xs: seq<seq<T>>): seq<T> {
    if xs == [] then [] else Flatten(xs[..|xs| - 1]) + xs[|xs| - 1]
  }

  lemma {:induction false} InFlatten<T>(xs: seq<seq<T>>, x: T)
    ensures x in Flatten(xs) <==> exists k :: 0 <= k < |xs| && x in xs[k]
  {
    if xs != [] {
      var front := xs[..|xs| - 1];
      InFlatten(front, x);
      assert forall k :: 0 <= k < |front| ==> front[k] == xs[k];
      assert x in xs[|xs| - 1] ==> exists k :: 0 <= k < |xs| && x in xs[k];
    }
  }

  /** The rows of anchor `a`, filtered by size; then those of all anchors in turn. */
  function RowsOf(targets: seq<Target>, g: Grid, a: nat, limit: real): (rows: seq<Row>)
    requires g.Valid() && a < |g.anchors| && forall i :: 0 <= i < |targets| ==> targets[i].Valid()
  {
    if targets == [] then []
    else
      var r := Scaled(targets[|targets| - 1], g, a);
      SizesStay(targets[|targets| - 1], g, a);
      RowsOf(targets[..|targets| - 1], g, a, limit) + if Matches(r, g, limit) then [r] else []
  }

  function Rows(targets: seq<Target>, g: Grid, limit: real): (rows: seq<Row>)
    requires g.Valid() && forall i :: 0 <= i < |targets| ==> targets[i].Valid()
  {
    Flatten(seq(|g.anchors|, a requires 0 <= a < |g.anchors| => RowsOf(targets, g, a, limit)))
  }

  /** The copies of one kind; then those of all kinds in turn. */
  function Copies(rows: seq<Row>, g: Grid, m: nat): seq<Entry>
    requires g.Valid()
  {
    if rows == [] then []
    else
      var r := rows[|rows| - 1];
      Copies(rows[..|rows| - 1], g, m) + if Mask(m, r, g) then [Assign(m, r, g)] else []
  }

  function Entries(rows: seq<Row>, g: Grid): seq<Entry>
    requires g.Valid()
  {
    Flatten(seq(5, m requires 0 <= m < 5 => Copies(rows, g, m)))
  }

  function Assigned(targets: seq<Target>, g: Grid, limit: real): seq<Entry>
    requires g.Valid() && forall i :: 0 <= i < |targets| ==> targets[i].Valid()
  {
    Entries(Rows(targets, g, limit), g)
  }

  method BuildTargets(grids: seq<Grid>, targets: seq<Target>, limit: real) returns (out: seq<seq<Entry>>)
    requires (forall i :: 0 <= i < |grids| ==> grids[i].Valid()) && forall i :: 0 <= i < |targets| ==>
        targets[i].Valid()
    ensures |out| == |grids| && forall i :: 0 <= i < |grids| ==> out[i] == Assigned(targets, grids[i], limit)
  {
    out := [];
    for i := 0 to |grids|
      invariant |out| == i && forall k :: 0 <= k < i ==> out[k] == Assigned(targets, grids[k], limit)
    {
      var entries := [];
      if targets != [] {
        entries := Entries(Rows(targets, grids[i], limit), grids[i]);
      } else {
        NoTargets(grids[i], limit);
      }
      out := out + [entries];
    }
  }

  lemma {:induction false} AllEmpty<T>(xs: seq<seq<T>>)
    requires forall k :: 0 <= k < |xs| ==> xs[k] == []
    ensures Flatten(xs) == []
  {
    if xs != [] { AllEmpty(xs[..|xs| - 1]); }
  }

  lemma NoTargets(g: Grid, limit: real)
    requires g.Valid()
    ensures Assigned([], g, limit) == []
  {
    AllEmpty(seq(|g.anchors|, a requires 0 <= a < |g.anchors| => RowsOf([], g, a, limit)));
    AllEmpty(seq(5, m requires 0 <= m < 5 => Copies([], g, m)));
  }

  // ---- What an assignment is ----

  lemma WithinGrid(x: real, n: nat)
    requires 0.0 <= x <= 1.0
    ensures 0.0 <= Times(x, n as real) <= n as real
  {
    var d := n as real;
    ScaleReal(0.0, x, d);
    ScaleReal(0.0, 1.0 - x, d);
    assert (1.0 - x) * d == d - x * d;
  }

  lemma SizesStay(t: Target, g: Grid, a: nat)
    requires t.Valid()
    ensures Scaled(t, g, a).gw >= 0.0 && Scaled(t, g, a).gh >= 0.0
  {}

  lemma {:induction false} RowsOfHave(targets: seq<Target>, g: Grid, a: nat, limit: real, r: Row)
    requires g.Valid() && a < |g.anchors| && forall i :: 0 <= i < |targets| ==> targets[i].Valid()
    ensures r in RowsOf(targets, g, a, limit) <==>
            exists i :: 0 <= i < |targets| && r == Scaled(targets[i], g, a) && r.gw >= 0.0 && r.gh >= 0.0
                && Matches(r, g, limit)
  {
    if targets != [] {
      var front, last := targets[..|targets| - 1], targets[|targets| - 1];
      RowsOfHave(front, g, a, limit, r);
      SizesStay(last, g, a);
      assert forall i :: 0 <= i < |front| ==> front[i] == targets[i];
      if r == Scaled(last, g, a) && Matches(r, g, limit) {
        assert targets[|targets| - 1] == last;
      }
    }
  }

  lemma RowsHave(targets: seq<Target>, g: Grid, limit: real, r: Row)
    requires g.Valid() && forall i :: 0 <= i < |targets| ==> targets[i].Valid()
    ensures r in Rows(targets, g, limit) <==> exists a :: 0 <= a < |g.anchors| && r in RowsOf(targets, g, a, limit)
  {
    var all := seq(|g.anchors|, a requires 0 <= a < |g.anchors| => RowsOf(targets, g, a, limit));
    InFlatten(all, r);
    if k :| 0 <= k < |all| && r in all[k] {
      assert r in RowsOf(targets, g, k, limit);
    }
    if a :| 0 <= a < |g.anchors| && r in RowsOf(targets, g, a, limit) {
      assert r in all[a];
    }
  }

  lemma {:induction false} CopiesHave(rows: seq<Row>, g: Grid, m: nat, e: Entry)
    requires g.Valid()
    ensures e in Copies(rows, g, m) <==>
              exists i :: 0 <= i < |rows| && Mask(m, rows[i], g) && e == Assign(m, rows[i], g)
  {
    if rows != [] {
      var front, last := rows[..|rows| - 1], rows[|rows| - 1];
      CopiesHave(front, g, m, e);
      assert forall i :: 0 <= i < |front| ==> front[i] == rows[i];
      if Mask(m, last, g) && e == Assign(m, last, g) {
        assert rows[|rows| - 1] == last;
      }
    }
  }

  lemma EntriesHave(rows: seq<Row>, g: Grid, e: Entry)
    requires g.Valid()
    ensures e in Entries(rows, g) <==> exists m :: 0 <= m < 5 && e in Copies(rows, g, m)
  {
    var all := seq(5, m requires 0 <= m < 5 => Copies(rows, g, m));
    InFlatten(all, e);
    if k :| 0 <= k < |all| && e in all[k] {
      assert e in Copies(rows, g, k);
    }
    if m :| 0 <= m < 5 && e in Copies(rows, g, m) {
      assert e in all[m];
    }
  }

  /** The target, anchor and copy an entry comes from. */
  lemma Source(targets: seq<Target>, g: Grid, limit: real, e: Entry) returns (i: nat, a: nat, m: nat)
    requires g.Valid() && (forall i :: 0 <= i < |targets| ==> targets[i].Valid()) && e in Assigned(targets, g, limit)
    ensures i < |targets| && a < |g.anchors| && m < 5
    ensures var r := Scaled(targets[i], g, a);
            r.gw >= 0.0 && r.gh >= 0.0 && Matches(r, g, limit) && Mask(m, r, g) && e == Assign(m, r, g)
  {
    var rows := Rows(targets, g, limit);
    EntriesHave(rows, g, e);
    m :| 0 <= m < 5 && e in Copies(rows, g, m);
    CopiesHave(rows, g, m, e);
    var k :| 0 <= k < |rows| && Mask(m, rows[k], g) && e == Assign(m, rows[k], g);
    var r := rows[k];
    RowsHave(targets, g, limit, r);
    a :| 0 <= a < |g.anchors| && r in RowsOf(targets, g, a, limit);
    RowsOfHave(targets, g, a, limit, r);
    i :| 0 <= i < |targets| && r == Scaled(targets[i], g, a) && r.gw >= 0.0 && r.gh >= 0.0 && Matches(r, g, limit);
  }

  /** Every target is assigned, for every anchor whose size it fits, to its cell and the allowed neighbours. */
  lemma FittingIsAssigned(targets: seq<Target>, g: Grid, limit: real, i: nat, a: nat, m: nat)
    requires g.Valid() && (forall i :: 0 <= i < |targets| ==> targets[i].Valid())
    requires i < |targets| && a < |g.anchors| && m < 5
    requires var r := Scaled(targets[i], g, a);
             r.gw >= 0.0 && r.gh >= 0.0 && Matches(r, g, limit) && Mask(m, r, g)
    ensures Assign(m, Scaled(targets[i], g, a), g) in Assigned(targets, g, limit)
  {
    var r, rows := Scaled(targets[i], g, a), Rows(targets, g, limit);
    RowsOfHave(targets, g, a, limit, r);
    RowsHave(targets, g, limit, r);
    var k :| 0 <= k < |rows| && rows[k] == r;
    CopiesHave(rows, g, m, Assign(m, r, g));
    EntriesHave(rows, g, Assign(m, r, g));
  }

  // ---- One axis ----

  /** May the cell be moved by `o` along an axis with the centre at `c`? */
  predicate Allowed(c: real, n: nat, o: real) {
    o == 0.0 || (o == 0.5 && Low(c)) || (o == -0.5 && High(c, n))
  }

  function AxisCell(c: real, n: nat, o: real): nat
    requires n > 0
  {
    Clamp(Trunc(c - o), n)
  }

  /** Along each axis the centre is less than half a cell below and one and a half above the cell's start. */
  lemma AxisOffset(c: real, n: nat, o: real)
    requires 0.0 <= c <= n as real && n > 0 && Allowed(c, n, o)
    ensures -0.5 < c - AxisCell(c, n, o) as real < 1.5
  {
    var k := c.Floor;
    if o == 0.5 {
      assert (c - 0.5).Floor == k - 1;
    } else if o == -0.5 {
      var d := (n as real - c).Floor;
      assert k == n - d || k == n - d - 1;
      assert (c + 0.5).Floor == n - d;
    }
  }

  /** The clamp only ever moves a centre on the far edge. */
  lemma ClampIsForEdges(c: real, n: nat, o: real)
    requires 0.0 <= c <= n as real && n > 0 && Allowed(c, n, o)
    ensures Trunc(c - o) == AxisCell(c, n, o) <==> !(c == n as real && o == 0.0)
  {
    if o == -0.5 {
      assert c + 0.5 < n as real;
    }
  }

  // ---- The box decoder ----

  /** `sigmoid(p) * 2 - 0.5` and `(sigmoid(p) * 2) ** 2 * anchor`, given the sigmoid. */
  function DecodedOffset(s: real): real { s * 2.0 - 0.5 }
  function DecodedSize(s: real, anchor: real): real { (s * 2.0) * (s * 2.0) * anchor }

  lemma SizeReached(size: real, anchor: real, sqrt: real -> real) returns (s: real)
    requires IsSqrt(sqrt) && anchor > 0.0 && 0.0 < size < 4.0 * anchor
    ensures 0.0 < s < 1.0 && DecodedSize(s, anchor) == size
  {
    var q := size / anchor;
    assert q * anchor == size;
    assert 0.0 < q < 4.0 by {
      if q <= 0.0 { ScaleReal(0.0, -q, anchor); assert false; }
      if q >= 4.0 { ScaleReal(0.0, q - 4.0, anchor); assert false; }
    }
    var u := sqrt(q);
    assert u * u == q;
    assert 0.0 < u < 2.0 by {
      if u >= 2.0 { ScaleReal(0.0, u - 2.0, u + 2.0); assert false; }
    }
    s := u / 2.0;
    assert s * 2.0 == u;
  }

  lemma RatioBounds(size: real, anchor: real, limit: real)
    requires anchor > 0.0 && size >= 0.0 && RatioFits(size, anchor, limit) && limit <= 4.0
    ensures 0.0 < size < 4.0 * anchor && anchor < 4.0 * size
  {
    Below(size, anchor);
    Below(anchor, size);
  }

  lemma Below(a: real, b: real)
    requires b > 0.0 && a / b < 4.0
    ensures a < 4.0 * b
  {
    var t := a / b;
    assert t * b == a;
    assert (4.0 - t) * b > 0.0;
    assert (4.0 - t) * b == 4.0 * b - t * b;
  }

  /** Every assignment lies in the grid, and the decoder, whose sigmoids range over (0, 1), can produce its box. */
  lemma EveryEntryIsReachable(targets: seq<Target>, g: Grid, limit: real, e: Entry, sqrt: real -> real)
    requires g.Valid() && (forall i :: 0 <= i < |targets| ==> targets[i].Valid()) && limit <= 4.0 && IsSqrt(sqrt)
    requires e in Assigned(targets, g, limit)
    ensures e.gi < g.nx && e.gj < g.ny && e.a < |g.anchors|
    ensures -0.5 < e.tx < 1.5 && -0.5 < e.ty < 1.5
    ensures 0.0 < e.tw < 4.0 * g.anchors[e.a].w && 0.0 < e.th < 4.0 * g.anchors[e.a].h
    ensures exists s :: 0.0 < s < 1.0 && DecodedOffset(s) == e.tx
    ensures exists s :: 0.0 < s < 1.0 && DecodedOffset(s) == e.ty
    ensures exists s :: 0.0 < s < 1.0 && DecodedSize(s, g.anchors[e.a].w) == e.tw
    ensures exists s :: 0.0 < s < 1.0 && DecodedSize(s, g.anchors[e.a].h) == e.th
  {
    var i, a, m := Source(targets, g, limit, e);
    var r := Scaled(targets[i], g, a);
    WithinGrid(targets[i].x, g.nx);
    WithinGrid(targets[i].y, g.ny);
    AxisOffset(r.gx, g.nx, OffX(m));
    AxisOffset(r.gy, g.ny, OffY(m));
    RatioBounds(r.gw, g.anchors[a].w, limit);
    RatioBounds(r.gh, g.anchors[a].h, limit);
    var sx, sy := (e.tx + 0.5) / 2.0, (e.ty + 0.5) / 2.0;
    assert DecodedOffset(sx) == e.tx && DecodedOffset(sy) == e.ty;
    var sw := SizeReached(e.tw, g.anchors[a].w, sqrt);
    var sh := SizeReached(e.th, g.anchors[a].h, sqrt);
  }

  // ---- How many cells ----

  /** The cells a matched row goes to. */
  function Cells(r: Row, g: Grid): set<(nat, nat)>
    requires g.Valid()
  {
    set m | m in {0, 1, 2, 3, 4} && Mask(m, r, g) :: (CellX(m, r, g), CellY(m, r, g))
  }

  lemma Fractions(c: real, n: nat)
    ensures Frac(c) == 0.0 || Frac(n as real - c) == 1.0 - Frac(c)
  {
    var k, d := c.Floor, (n as real - c).Floor;
    assert k as real <= c < k as real + 1.0;
    if c != k as real {
      assert d == n - k - 1;
    }
  }

  /** An axis contributes at most one cell besides the centre's. */
  lemma OneNeighbour(c: real, n: nat)
    requires 0.0 <= c <= n as real && n > 0 && Low(c) && High(c, n)
    ensures AxisCell(c, n, -0.5) == AxisCell(c, n, 0.0)
  {
    var k := c.Floor;
    Fractions(c, n);
    assert c == k as real;
    assert (c + 0.5).Floor == k;
  }

  lemma AtMostThreeCells(t: Target, g: Grid, a: nat)
    requires t.Valid() && g.Valid()
    ensures |Cells(Scaled(t, g, a), g)| <= 3
  {
    var r := Scaled(t, g, a);
    WithinGrid(t.x, g.nx);
    WithinGrid(t.y, g.ny);
    var x, y := AxisCell(r.gx, g.nx, 0.0), AxisCell(r.gy, g.ny, 0.0);
    var x' := if Low(r.gx) then AxisCell(r.gx, g.nx, 0.5) else AxisCell(r.gx, g.nx, -0.5);
    var y' := if Low(r.gy) then AxisCell(r.gy, g.ny, 0.5) else AxisCell(r.gy, g.ny, -0.5);
    if Low(r.gx) && High(r.gx, g.nx) { OneNeighbour(r.gx, g.nx); }
    if Low(r.gy) && High(r.gy, g.ny) { OneNeighbour(r.gy, g.ny); }
    var three := {(x, y), (x', y), (x, y')};
    forall m | m in {0, 1, 2, 3, 4} && Mask(m, r, g)
      ensures (CellX(m, r, g), CellY(m, r, g)) in three
    {
    }
    SubsetSize(Cells(r, g), three);
  }

  /** A centre on a grid line, neither next to the far edge nor in a single cell, has a copy in its own cell. */
  predicate OnLine(c: real, n: nat) {
    Frac(c) == 0.0 && (n as real - c > 1.0 || (c == n as real && n > 1))
  }

  lemma AxisRepeats(c: real, n: nat)
    requires 0.0 <= c <= n as real && n > 0
    ensures OnLine(c, n) <==>
            || (Low(c) && AxisCell(c, n, 0.5) == AxisCell(c, n, 0.0))
            || (High(c, n) && AxisCell(c, n, -0.5) == AxisCell(c, n, 0.0))
  {
    var k, d := c.Floor, (n as real - c).Floor;
    assert k == n - d || k == n - d - 1;
    if Frac(c) == 0.0 {
      assert c == k as real && d == n - k;
    }
  }

  predicate Twice(r: Row, g: Grid, m: nat, m': nat)
    requires g.Valid()
  {
    Mask(m, r, g) && Mask(m', r, g) && Assign(m, r, g) == Assign(m', r, g)
  }

  lemma TwiceIsOnLine(r: Row, g: Grid, m: nat, m': nat)
    requires g.Valid() && 0.0 <= r.gx <= g.nx as real && 0.0 <= r.gy <= g.ny as real && m < m' < 5 && Twice(r, g, m, m')
    ensures OnLine(r.gx, g.nx) || OnLine(r.gy, g.ny)
  {
    AxisRepeats(r.gx, g.nx);
    AxisRepeats(r.gy, g.ny);
    if m == 1 && m' == 3 { OneNeighbour(r.gx, g.nx); }
    if m == 2 && m' == 4 { OneNeighbour(r.gy, g.ny); }
  }

  /** Whether the copy in the centre's own cell is the lower one. */
  predicate LowRepeats(c: real, n: nat)
    requires n > 0
  {
    Low(c) && AxisCell(c, n, 0.5) == AxisCell(c, n, 0.0)
  }

  lemma OnLineIsTwice(r: Row, g: Grid) returns (m: nat)
    requires g.Valid() && 0.0 <= r.gx <= g.nx as real && 0.0 <= r.gy <= g.ny as real
    requires OnLine(r.gx, g.nx) || OnLine(r.gy, g.ny)
    ensures 0 < m < 5 && Twice(r, g, 0, m)
  {
    if OnLine(r.gx, g.nx) {
      AxisRepeats(r.gx, g.nx);
      m := if LowRepeats(r.gx, g.nx) then 1 else 3;
    } else {
      AxisRepeats(r.gy, g.ny);
      m := if LowRepeats(r.gy, g.ny) then 2 else 4;
    }
  }

  /** One target is put twice into the same cell, with the same box, exactly when its centre is on such a line. */
  lemma SameCellTwiceIff(t: Target, g: Grid, a: nat)
    requires t.Valid() && g.Valid()
    ensures var r := Scaled(t, g, a);
            (exists m: nat, m': nat :: m < m' < 5 && Twice(r, g, m, m')) <==> OnLine(r.gx, g.nx) || OnLine(r.gy, g.ny)
  {
    var r := Scaled(t, g, a);
    WithinGrid(t.x, g.nx);
    WithinGrid(t.y, g.ny);
    if OnLine(r.gx, g.nx) || OnLine(r.gy, g.ny) {
      var m := OnLineIsTwice(r, g);
      assert Twice(r, g, 0, m);
    }
    if m: nat, m': nat :| m < m' < 5 && Twice(r, g, m, m') {
      TwiceIsOnLine(r, g, m, m');
    }
  }

  // ---- Which entries there are, from the labels alone ----

  predicate InCell(c: real, k: int) { k as real <= c < k as real + 1.0 }

  /** The centre's own cell along an axis; a centre on the far edge belongs to the last one. */
  predicate Own(c: real, n: nat, k: nat) { k < n && (InCell(c, k) || (c == n as real && k == n - 1)) }

  /** The cell before, of a centre in the first half of a cell that is not the first ... */
  predicate Before(c: real, k: nat) { c > 1.0 && InCell(c, k + 1) && c - (k + 1) as real < 0.5 }

  /** ... and the cell behind, of one in the second half of a cell that is not the last; on a line between cells
      that is the cell which starts there. */
  predicate Behind(c: real, n: nat, k: nat) {
    n as real - c > 1.0 && ((InCell(c, k - 1) && c - (k - 1) as real > 0.5) || c == k as real)
  }

  /** Neither side more than `limit` times the other. */
  predicate Alike(size: real, anchor: real, limit: real) {
    size > 0.0 && size < Times(limit, anchor) && anchor < Times(limit, size)
  }

  /** `e` is an entry of target `t` for anchor `a`: the target's image and class; its size in grid units, not too
      far from the anchor's; the cell of its centre or one neighbour on the nearer side, and the centre from there. */
  predicate Belongs(t: Target, g: Grid, a: nat, limit: real, e: Entry)
    requires a < |g.anchors|
  {
    var cx, cy := Times(t.x, g.nx as real), Times(t.y, g.ny as real);
    && e.image == t.image && e.cls == t.cls && e.a == a
    && e.tw == Times(t.w, g.nx as real) && e.th == Times(t.h, g.ny as real)
    && Alike(e.tw, g.anchors[a].w, limit) && Alike(e.th, g.anchors[a].h, limit)
    && e.gi as real + e.tx == cx && e.gj as real + e.ty == cy
    && ((Own(cx, g.nx, e.gi) && (Own(cy, g.ny, e.gj) || Before(cy, e.gj) || Behind(cy, g.ny, e.gj)))
        || (Own(cy, g.ny, e.gj) && (Before(cx, e.gi) || Behind(cx, g.nx, e.gi))))
  }

  lemma QuotientBelow(a: real, b: real, limit: real)
    requires b > 0.0
    ensures a / b < limit <==> a < Times(limit, b)
  {
    var q := a / b;
    assert q * b == a;
    if q < limit { ScaleRealStrict(q, limit, b); } else { ScaleReal(limit, q, b); }
  }

  lemma FitsIsAlike(size: real, anchor: real, limit: real)
    requires anchor > 0.0 && size >= 0.0
    ensures RatioFits(size, anchor, limit) <==> Alike(size, anchor, limit)
  {
    QuotientBelow(size, anchor, limit);
    if size > 0.0 { QuotientBelow(anchor, size, limit); }
  }

  lemma CellIs(c: real, n: nat, k: nat)
    requires 0.0 <= c <= n as real && n > 0
    ensures AxisCell(c, n, 0.0) == k <==> Own(c, n, k)
    ensures Low(c) && AxisCell(c, n, 0.5) == k <==> Before(c, k)
    ensures High(c, n) && AxisCell(c, n, -0.5) == k <==> Behind(c, n, k)
  {
    OwnIs(c, n, k);
    BeforeIs(c, n, k);
    BehindIs(c, n, k);
  }

  lemma OwnIs(c: real, n: nat, k: nat)
    requires 0.0 <= c <= n as real && n > 0
    ensures AxisCell(c, n, 0.0) == k <==> Own(c, n, k)
  {
    InCellIs(c, k);
    assert Trunc(c - 0.0) == c.Floor;
  }

  lemma InCellIs(c: real, k: int)
    ensures InCell(c, k) <==> k == c.Floor
  {
  }

  lemma BeforeIs(c: real, n: nat, k: nat)
    requires 0.0 <= c <= n as real && n > 0
    ensures Low(c) && AxisCell(c, n, 0.5) == k <==> Before(c, k)
  {
    InCellIs(c, k + 1);
    if Low(c) {
      var j := c.Floor;
      assert (c - 0.5).Floor == j - 1 && 0 <= j - 1 < n;
      assert AxisCell(c, n, 0.5) == j - 1;
    }
  }

  lemma BehindIs(c: real, n: nat, k: nat)
    requires 0.0 <= c <= n as real && n > 0
    ensures High(c, n) && AxisCell(c, n, -0.5) == k <==> Behind(c, n, k)
  {
    Fractions(c, n);
    if High(c, n) {
      assert (c + 0.5).Floor == if Frac(c) == 0.0 then c.Floor else c.Floor + 1;
    }
  }

  lemma RowFits(t: Target, g: Grid, a: nat, limit: real)
    requires t.Valid() && g.Valid() && a < |g.anchors|
    ensures var r := Scaled(t, g, a);
            && r.gw >= 0.0 && r.gh >= 0.0
            && (Matches(r, g, limit) <==> Alike(r.gw, g.anchors[a].w, limit) && Alike(r.gh, g.anchors[a].h, limit))
            && 0.0 <= r.gx <= g.nx as real && 0.0 <= r.gy <= g.ny as real
  {
    var r := Scaled(t, g, a);
    SizesStay(t, g, a);
    WithinGrid(t.x, g.nx);
    WithinGrid(t.y, g.ny);
    FitsIsAlike(r.gw, g.anchors[a].w, limit);
    FitsIsAlike(r.gh, g.anchors[a].h, limit);
  }

  lemma CopyBelongs(t: Target, g: Grid, a: nat, limit: real, e: Entry, m: nat)
    requires t.Valid() && g.Valid() && a < |g.anchors| && m < 5
    ensures var r := Scaled(t, g, a);
            && r.gw >= 0.0 && r.gh >= 0.0
            && (Matches(r, g, limit) && Copied(m, r, g, e) ==> Belongs(t, g, a, limit, e))
  {
    var r := Scaled(t, g, a);
    RowFits(t, g, a, limit);
    CellIs(r.gx, g.nx, e.gi);
    CellIs(r.gy, g.ny, e.gj);
  }

  lemma BelongsIsCopy(t: Target, g: Grid, a: nat, limit: real, e: Entry) returns (m: nat)
    requires t.Valid() && g.Valid() && a < |g.anchors| && Belongs(t, g, a, limit, e)
    ensures m < 5
    ensures var r := Scaled(t, g, a); r.gw >= 0.0 && r.gh >= 0.0 && Matches(r, g, limit) && Copied(m, r, g, e)
  {
    var r := Scaled(t, g, a);
    RowFits(t, g, a, limit);
    CellIs(r.gx, g.nx, e.gi);
    CellIs(r.gy, g.ny, e.gj);
    m := if !Own(r.gy, g.ny, e.gj) then (if Before(r.gy, e.gj) then 2 else 4)
         else if Own(r.gx, g.nx, e.gi) then 0 else if Before(r.gx, e.gi) then 1 else 3;
  }

  /** `e` is the `m`-th copy of the row. */
  predicate Copied(m: nat, r: Row, g: Grid, e: Entry)
    requires g.Valid()
  {
    Mask(m, r, g) && e == Assign(m, r, g)
  }

  /** What `build_targets` assigns in a grid, exactly. */
  lemma AssignedIff(targets: seq<Target>, g: Grid, limit: real, e: Entry)
    requires g.Valid() && forall i :: 0 <= i < |targets| ==> targets[i].Valid()
    ensures e in Assigned(targets, g, limit) <==>
              exists i: nat, a: nat :: i < |targets| && a < |g.anchors| && Belongs(targets[i], g, a, limit, e)
  {
    if e in Assigned(targets, g, limit) {
      var i, a, m := Source(targets, g, limit, e);
      assert Copied(m, Scaled(targets[i], g, a), g, e);
      CopyBelongs(targets[i], g, a, limit, e, m);
    }
    if i: nat, a: nat :| i < |targets| && a < |g.anchors| && Belongs(targets[i], g, a, limit, e) {
      var m := BelongsIsCopy(targets[i], g, a, limit, e);
      FittingIsAssigned(targets, g, limit, i, a, m);
    }
  }
}
