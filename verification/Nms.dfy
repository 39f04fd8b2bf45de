/** Non-maximum suppression (yolov5/utils/general.py, `non_max_suppression`): the class-offset trick
    lets one greedy pass do the work of one pass per class. */
module Nms {
  import opened Messages
  import opened Numbers
  import opened Sorting

  const MAX_WH := 7680.0
  const MAX_NMS := 30000

  datatype Box = Box(x1: real, y1: real, x2: real, y2: real)

  /** A candidate; `row` is its row in the candidate matrix. */
  datatype Det = Det(box: Box, conf: real, cls: nat, row: nat)

  // ---- Overlap ----

  function Side(lo1: real, hi1: real, lo2: real, hi2: real): real {
    Max(0.0, Min(hi1, hi2) - Max(lo1, lo2))
  }

  function Extent(lo: real, hi: real): real {
    hi - lo
  }

  /** Is inter / union above the threshold, given two boxes' extents and those of their overlap?  With
      an empty union it is no number, and not above. */
  predicate Above(w1: real, h1: real, w2: real, h2: real, w: real, h: real, thres: real) {
    var inter := Times(w, h);
    var union := Times(w1, h1) + Times(w2, h2) - inter;
    union != 0.0 && inter / union > thres
  }

  /** Is the IoU of two boxes above the threshold? */
  predicate Suppresses(a: Box, b: Box, thres: real) {
    Above(Extent(a.x1, a.x2), Extent(a.y1, a.y2), Extent(b.x1, b.x2), Extent(b.y1, b.y2),
          Side(a.x1, a.x2, b.x1, b.x2), Side(a.y1, a.y2, b.y1, b.y2), thres)
  }

  function Shift(b: Box, c: real): Box {
    Box(b.x1 + c, b.y1 + c, b.x2 + c, b.y2 + c)
  }

  /** Does `a` suppress `b` once boxes are moved by their class times `offset`? */
  predicate Hits(a: Det, b: Det, offset: real, thres: real) {
    Suppresses(Shift(a.box, Corner(a, offset)), Shift(b.box, Corner(b, offset)), thres)
  }

  function Corner(d: Det, offset: real): real {
    d.cls as real * offset
  }

  predicate InFrame(b: Box) {
    0.0 <= b.x1 <= MAX_WH && 0.0 <= b.y1 <= MAX_WH && 0.0 <= b.x2 <= MAX_WH && 0.0 <= b.y2 <= MAX_WH
  }

  /** Moving two boxes together changes nothing. */
  lemma ShiftTogether(a: Box, b: Box, c: real, thres: real)
    ensures Suppresses(Shift(a, c), Shift(b, c), thres) == Suppresses(a, b, thres)
  {
    SideShifts(a.x1, a.x2, b.x1, b.x2, c);
    SideShifts(a.y1, a.y2, b.y1, b.y2, c);
  }

  lemma SideShifts(lo1: real, hi1: real, lo2: real, hi2: real, c: real)
    ensures Side(lo1 + c, hi1 + c, lo2 + c, hi2 + c) == Side(lo1, hi1, lo2, hi2)
    ensures Extent(lo1 + c, hi1 + c) == Extent(lo1, hi1) && Extent(lo2 + c, hi2 + c) == Extent(lo2, hi2)
  {
  }

  lemma NothingAbove(w1: real, h1: real, w2: real, h2: real, h: real, thres: real)
    requires thres >= 0.0
    ensures !Above(w1, h1, w2, h2, 0.0, h, thres)
  {
    var union := Times(w1, h1) + Times(w2, h2) - Times(0.0, h);
    if union != 0.0 {
      assert 0.0 / union == 0.0;
    }
  }

  lemma SameClassHits(a: Det, b: Det, offset: real, thres: real)
    requires a.cls == b.cls
    ensures Hits(a, b, offset, thres) == Hits(a, b, 0.0, thres)
  {
    HitsAtCorner(a, b, offset, thres);
    HitsAtCorner(a, b, 0.0, thres);
  }

  lemma HitsAtCorner(a: Det, b: Det, offset: real, thres: real)
    requires a.cls == b.cls
    ensures Hits(a, b, offset, thres) == Suppresses(a.box, b.box, thres)
  {
    var c := Corner(a, offset);
    assert Corner(b, offset) == c;
    ShiftTogether(a.box, b.box, c, thres);
  }

  /** Boxes of different classes end up in different squares. */
  lemma ShiftApart(a: Det, b: Det, thres: real)
    requires a.cls != b.cls && InFrame(a.box) && InFrame(b.box) && thres >= 0.0
    ensures !Hits(a, b, MAX_WH, thres)
  {
    var a', b' := Shift(a.box, a.cls as real * MAX_WH), Shift(b.box, b.cls as real * MAX_WH);
    assert a.cls + 1 <= b.cls || b.cls + 1 <= a.cls;
    assert a.cls as real * MAX_WH + MAX_WH <= b.cls as real * MAX_WH
           || b.cls as real * MAX_WH + MAX_WH <= a.cls as real * MAX_WH;
    assert Side(a'.x1, a'.x2, b'.x1, b'.x2) == 0.0;
    NothingAbove(Extent(a'.x1, a'.x2), Extent(a'.y1, a'.y2), Extent(b'.x1, b'.x2), Extent(b'.y1, b'.y2),
                 Side(a'.y1, a'.y2, b'.y1, b'.y2), thres);
  }

  // ---- What overlap means ----

  predicate Holds(b: Box, x: real, y: real) { b.x1 <= x <= b.x2 && b.y1 <= y <= b.y2 }

  predicate Solid(b: Box) { b.x1 < b.x2 && b.y1 < b.y2 }

  function Area(b: Box): real { Times(b.x2 - b.x1, b.y2 - b.y1) }

  /** The box two boxes have in common, if they meet. */
  function Common(a: Box, b: Box): Option<Box> {
    var x1, x2 := if a.x1 < b.x1 then b.x1 else a.x1, if a.x2 < b.x2 then a.x2 else b.x2;
    var y1, y2 := if a.y1 < b.y1 then b.y1 else a.y1, if a.y2 < b.y2 then a.y2 else b.y2;
    if x1 <= x2 && y1 <= y2 then Some(Box(x1, y1, x2, y2)) else None
  }

  /** It holds the points of both. */
  lemma CommonHolds(a: Box, b: Box, x: real, y: real)
    ensures Holds(a, x, y) && Holds(b, x, y) <==> Common(a, b).Some? && Holds(Common(a, b).value, x, y)
  {
  }

  function CommonArea(a: Box, b: Box): real {
    match Common(a, b) case Some(c) => Area(c) case None => 0.0
  }

  lemma SideIs(lo1: real, hi1: real, lo2: real, hi2: real)
    ensures var lo, hi := if lo1 < lo2 then lo2 else lo1, if hi1 < hi2 then hi1 else hi2;
            Side(lo1, hi1, lo2, hi2) == if lo <= hi then hi - lo else 0.0
  {
  }

  lemma SidesAreCommon(a: Box, b: Box)
    ensures Times(Side(a.x1, a.x2, b.x1, b.x2), Side(a.y1, a.y2, b.y1, b.y2)) == CommonArea(a, b)
  {
    SideIs(a.x1, a.x2, b.x1, b.x2);
    SideIs(a.y1, a.y2, b.y1, b.y2);
    NoSide(Side(a.x1, a.x2, b.x1, b.x2), Side(a.y1, a.y2, b.y1, b.y2));
  }

  lemma NoSide(w: real, h: real)
    ensures w == 0.0 || h == 0.0 ==> Times(w, h) == 0.0
  {
  }

  lemma TimesWithin(w: real, h: real, w1: real, h1: real)
    requires 0.0 <= w <= w1 && 0.0 <= h <= h1
    ensures 0.0 <= Times(w, h) <= Times(w1, h1)
  {
    ScaleReal(0.0, w, h);
    ScaleReal(w, w1, h);
    ScaleReal(h, h1, w1);
  }

  lemma AreasOrdered(a: Box, b: Box)
    requires Solid(a) && Solid(b)
    ensures 0.0 <= CommonArea(a, b) <= Area(a) && Area(b) > 0.0
  {
    if Common(a, b).Some? {
      var c := Common(a, b).value;
      TimesWithin(c.x2 - c.x1, c.y2 - c.y1, a.x2 - a.x1, a.y2 - a.y1);
    } else {
      TimesWithin(0.0, 0.0, a.x2 - a.x1, a.y2 - a.y1);
    }
    TimesPositive(b.x2 - b.x1, b.y2 - b.y1);
  }

  lemma TimesPositive(w: real, h: real)
    requires w > 0.0 && h > 0.0
    ensures Times(w, h) > 0.0
  {
    ScaleRealStrict(0.0, w, h);
  }

  lemma QuotientAbove(inter: real, union: real, thres: real)
    requires union > 0.0
    ensures inter / union > thres <==> inter > thres * union
  {
    var q := inter / union;
    assert q * union == inter;
    if q > thres { ScaleRealStrict(thres, q, union); } else { ScaleReal(q, thres, union); }
  }

  /** One box suppresses another exactly when the area they have in common is more than that part of the area
      they cover together. */
  lemma SuppressesIsIou(a: Box, b: Box, thres: real)
    requires Solid(a) && Solid(b)
    ensures Suppresses(a, b, thres) <==>
              CommonArea(a, b) > thres * (Area(a) + Area(b) - CommonArea(a, b))
  {
    SidesAreCommon(a, b);
    AreasOrdered(a, b);
    QuotientAbove(CommonArea(a, b), Area(a) + Area(b) - CommonArea(a, b), thres);
  }

  /** Equal boxes suppress each other at every threshold below 1. */
  lemma EqualSuppress(a: Box, thres: real)
    requires Solid(a) && thres < 1.0
    ensures Suppresses(a, a, thres)
  {
    SuppressesIsIou(a, a, thres);
    AreasOrdered(a, a);
    assert CommonArea(a, a) == Area(a);
    ScaleRealStrict(thres, 1.0, Area(a));
  }

  // ---- Ranking ----

  function ConfOf(): Det -> real { (d: Det) => d.conf }

  /** Highest score first; equal scores keep their order. */
  function ByScore(s: seq<Det>): seq<Det> { SortBy(s, ConfOf()) }

  /** The order is by falling score, and selecting a part first or last makes no difference: the sort is
      stable. */
  lemma ByScoreSorts(s: seq<Det>, p: Det -> bool)
    ensures multiset(ByScore(s)) == multiset(s)
    ensures forall i, j :: 0 <= i < j < |ByScore(s)| ==> ByScore(s)[i].conf >= ByScore(s)[j].conf
    ensures Filter(ByScore(s), p) == ByScore(Filter(s, p))
  {
    SortBySorts(s, ConfOf());
    forall i, j | 0 <= i < j < |ByScore(s)|
      ensures ByScore(s)[i].conf >= ByScore(s)[j].conf
    {
      assert ConfOf()(ByScore(s)[i]) >= ConfOf()(ByScore(s)[j]);
    }
    SortFilter(s, ConfOf(), p);
  }

  // ---- Greedy suppression ----

  predicate HitByAny(kept: seq<Det>, d: Det, hits: (Det, Det) -> bool) {
    exists k :: 0 <= k < |kept| && hits(kept[k], d)
  }

  /** Keep a candidate unless one kept before it suppresses it. */
  function Greedy(s: seq<Det>, hits: (Det, Det) -> bool): seq<Det> {
    if s == [] then []
    else
      var kept, d := Greedy(s[..|s| - 1], hits), s[|s| - 1];
      if HitByAny(kept, d, hits) then kept else kept + [d]
  }

  /** torchvision's `nms` on the shifted boxes, as rows of the candidate matrix. */
  function Suppressed(x: seq<Det>, offset: real, thres: real): seq<Det> {
    Greedy(ByScore(x), (a, b) => Hits(a, b, offset, thres))
  }

  predicate DistinctRows(s: seq<Det>) {
    forall i, j :: 0 <= i < j < |s| ==> s[i].row != s[j].row
  }

  lemma {:induction false} GreedyFrom(s: seq<Det>, hits: (Det, Det) -> bool, d: Det)
    requires d in Greedy(s, hits)
    ensures d in s
  {
    if d != s[|s| - 1] {
      GreedyFrom(s[..|s| - 1], hits, d);
      assert s == s[..|s| - 1] + [s[|s| - 1]];
    }
  }

  /** A candidate's fate is settled by those before it. */
  lemma {:induction false} GreedyPrefix(s: seq<Det>, hits: (Det, Det) -> bool, i: nat, n: nat)
    requires DistinctRows(s) && i < n <= |s|
    ensures s[i] in Greedy(s[..n], hits) <==> s[i] in Greedy(s[..i + 1], hits)
  {
    if i + 1 < n {
      assert s[..n][..n - 1] == s[..n - 1];
      GreedyPrefix(s, hits, i, n - 1);
      assert s[n - 1].row != s[i].row;
    }
  }

  ghost predicate EarlierHit(s: seq<Det>, hits: (Det, Det) -> bool, i: nat)
    requires i < |s|
  {
    exists j :: 0 <= j < i && s[j] in Greedy(s, hits) && hits(s[j], s[i])
  }

  lemma HitMeansEarlier(s: seq<Det>, hits: (Det, Det) -> bool, i: nat)
    requires DistinctRows(s) && i < |s| && HitByAny(Greedy(s[..i], hits), s[i], hits)
    ensures EarlierHit(s, hits, i)
  {
    var before := Greedy(s[..i], hits);
    var k :| 0 <= k < |before| && hits(before[k], s[i]);
    GreedyFrom(s[..i], hits, before[k]);
    var j :| 0 <= j < i && s[..i][j] == before[k];
    GreedyPrefix(s, hits, j, i);
    GreedyPrefix(s, hits, j, |s|);
    assert s[..|s|] == s;
    assert s[j] in Greedy(s, hits);
  }

  lemma EarlierMeansHit(s: seq<Det>, hits: (Det, Det) -> bool, i: nat)
    requires DistinctRows(s) && i < |s| && EarlierHit(s, hits, i)
    ensures HitByAny(Greedy(s[..i], hits), s[i], hits)
  {
    var before := Greedy(s[..i], hits);
    var j :| 0 <= j < i && s[j] in Greedy(s, hits) && hits(s[j], s[i]);
    GreedyPrefix(s, hits, j, i);
    GreedyPrefix(s, hits, j, |s|);
    assert s[..|s|] == s;
    var k :| 0 <= k < |before| && before[k] == s[j];
    assert hits(before[k], s[i]);
  }

  lemma NotYetKept(s: seq<Det>, hits: (Det, Det) -> bool, i: nat)
    requires DistinctRows(s) && i < |s|
    ensures s[i] !in Greedy(s[..i], hits)
  {
    if s[i] in Greedy(s[..i], hits) {
      GreedyFrom(s[..i], hits, s[i]);
      assert false;
    }
  }

  lemma GreedyNext(s: seq<Det>, hits: (Det, Det) -> bool, i: nat)
    requires i < |s|
    ensures var kept := Greedy(s[..i], hits);
            Greedy(s[..i + 1], hits) == if HitByAny(kept, s[i], hits) then kept else kept + [s[i]]
  {
    assert s[..i + 1][..i] == s[..i];
  }

  lemma KeptUnlessHit(s: seq<Det>, hits: (Det, Det) -> bool, i: nat)
    requires DistinctRows(s) && i < |s|
    ensures s[i] in Greedy(s, hits) <==> !HitByAny(Greedy(s[..i], hits), s[i], hits)
  {
    GreedyPrefix(s, hits, i, |s|);
    assert s[..|s|] == s;
    NotYetKept(s, hits, i);
    GreedyNext(s, hits, i);
  }

  /** What greedy keeps, from the positions alone: a candidate stays exactly when no earlier one that
      stays suppresses it. */
  lemma GreedyKeeps(s: seq<Det>, hits: (Det, Det) -> bool, i: nat)
    requires DistinctRows(s) && i < |s|
    ensures s[i] in Greedy(s, hits) <==> !EarlierHit(s, hits, i)
  {
    KeptUnlessHit(s, hits, i);
    if HitByAny(Greedy(s[..i], hits), s[i], hits) {
      HitMeansEarlier(s, hits, i);
    }
    if EarlierHit(s, hits, i) {
      EarlierMeansHit(s, hits, i);
    }
  }

  // ---- One pass for all classes, or one per class ----

  /** Different classes never hit each other, and within a class `hits` is `own`. */
  predicate ClassWise(s: seq<Det>, hits: (Det, Det) -> bool, own: (Det, Det) -> bool) {
    forall a, b :: a in s && b in s ==> hits(a, b) == (a.cls == b.cls && own(a, b))
  }

  function OfClass(s: seq<Det>, c: nat): seq<Det> {
    Filter(s, (d: Det) => d.cls == c)
  }

  /** Restricted to a class, the shared pass keeps what that class's own pass keeps. */
  lemma {:induction false} GreedyPerClass(s: seq<Det>, hits: (Det, Det) -> bool, own: (Det, Det) -> bool, c: nat)
    requires ClassWise(s, hits, own)
    ensures OfClass(Greedy(s, hits), c) == Greedy(OfClass(s, c), own)
  {
    if s != [] {
      var front, d := s[..|s| - 1], s[|s| - 1];
      assert forall a :: a in front ==> a in s;
      GreedyPerClass(front, hits, own, c);
      var kept := Greedy(front, hits);
      FilterAppend(kept, [d], (e: Det) => e.cls == c);
      assert [d][..0] == [];
      if d.cls == c {
        HitsWithinClass(s, kept, d, hits, own);
        assert OfClass(s, c)[..|OfClass(s, c)| - 1] == OfClass(front, c);
      }
    }
  }

  lemma HitsWithinClass(s: seq<Det>, kept: seq<Det>, d: Det, hits: (Det, Det) -> bool, own: (Det, Det) -> bool)
    requires ClassWise(s, hits, own) && s != [] && d == s[|s| - 1] && kept == Greedy(s[..|s| - 1], hits)
    ensures HitByAny(kept, d, hits) <==> HitByAny(OfClass(kept, d.cls), d, own)
  {
    var same := OfClass(kept, d.cls);
    if HitByAny(kept, d, hits) {
      var k :| 0 <= k < |kept| && hits(kept[k], d);
      GreedyFrom(s[..|s| - 1], hits, kept[k]);
      assert kept[k] in s && d in s;
      FilterMember(kept, (e: Det) => e.cls == d.cls, kept[k]);
      var j :| 0 <= j < |same| && same[j] == kept[k];
      assert own(same[j], d);
    }
    if HitByAny(same, d, own) {
      var j :| 0 <= j < |same| && own(same[j], d);
      FilterMember(kept, (e: Det) => e.cls == d.cls, same[j]);
      GreedyFrom(s[..|s| - 1], hits, same[j]);
      assert same[j] in s && d in s;
      var k :| 0 <= k < |kept| && kept[k] == same[j];
      assert hits(kept[k], d);
    }
  }

  /** Suppress each class on its own and merge what is kept by score. */
  function Merged(x: seq<Det>, thres: real): seq<Det> {
    Filter(ByScore(x), (d: Det) => d in Suppressed(OfClass(x, d.cls), 0.0, thres))
  }

  lemma {:induction false} GreedyIsFilter(s: seq<Det>, hits: (Det, Det) -> bool, p: Det -> bool)
    requires DistinctRows(s) && forall d :: d in s ==> (p(d) <==> d in Greedy(s, hits))
    ensures Greedy(s, hits) == Filter(s, p)
  {
    if s != [] {
      var front, d := s[..|s| - 1], s[|s| - 1];
      var kept := Greedy(front, hits);
      assert d in s && d !in front;
      forall e | e in front
        ensures p(e) <==> e in kept
      {
        assert e in s && e != d;
      }
      GreedyIsFilter(front, hits, p);
      if d in kept {
        GreedyFrom(front, hits, d);
        assert false;
      }
    }
  }

  lemma SameRows(s: seq<Det>, t: seq<Det>)
    requires multiset(s) == multiset(t)
    ensures forall d :: d in s <==> d in t
  {
    assert forall d :: d in s <==> d in multiset(s);
    assert forall d :: d in t <==> d in multiset(t);
  }

  lemma {:induction false} DistinctRowsSorted(s: seq<Det>)
    requires DistinctRows(s)
    ensures DistinctRows(ByScore(s))
  {
    if s != [] {
      DistinctRowsSorted(s[1..]);
      SortBySorts(s[1..], ConfOf());
      SameRows(s[1..], ByScore(s[1..]));
      forall d | d in ByScore(s[1..])
        ensures d.row != s[0].row
      {
        var k :| 0 <= k < |s[1..]| && s[1..][k] == d;
      }
      InsertDistinct(s[0], ByScore(s[1..]));
    }
  }

  lemma {:induction false} InsertDistinct(d: Det, s: seq<Det>)
    requires DistinctRows(s) && forall e :: e in s ==> e.row != d.row
    ensures DistinctRows(Insert(d, s, ConfOf())) && forall e :: e in Insert(d, s, ConfOf()) <==> e == d || e in s
  {
    if s != [] && s[0].conf > d.conf {
      InsertDistinct(d, s[1..]);
      assert s == [s[0]] + s[1..];
      forall e | e in Insert(d, s[1..], ConfOf())
        ensures e.row != s[0].row
      {
        if e != d {
          var k :| 0 <= k < |s[1..]| && s[1..][k] == e;
          assert s[k + 1] == e;
        }
      }
    }
  }

  /** One pass in which classes ignore each other keeps what the passes per class keep. */
  lemma MergedIsOnePass(x: seq<Det>, hits: (Det, Det) -> bool, thres: real)
    requires DistinctRows(x)
    requires forall a, b :: a in ByScore(x) && b in ByScore(x) ==>
        hits(a, b) == (a.cls == b.cls && Hits(a, b, 0.0, thres))
    ensures Greedy(ByScore(x), hits) == Merged(x, thres)
  {
    var s := ByScore(x);
    DistinctRowsSorted(x);
    var own := (a, b) => Hits(a, b, 0.0, thres);
    var p := (d: Det) => d in Suppressed(OfClass(x, d.cls), 0.0, thres);
    forall d | d in s
      ensures p(d) <==> d in Greedy(s, hits)
    {
      GreedyPerClass(s, hits, own, d.cls);
      SortFilter(x, ConfOf(), (e: Det) => e.cls == d.cls);
      FilterMember(Greedy(s, hits), (e: Det) => e.cls == d.cls, d);
    }
    GreedyIsFilter(s, hits, p);
  }

  /** No member hits a later one. */
  predicate Apart(s: seq<Det>, hits: (Det, Det) -> bool) {
    forall i, j :: 0 <= i < j < |s| ==> !hits(s[i], s[j])
  }

  lemma {:induction false} GreedyIsApart(s: seq<Det>, hits: (Det, Det) -> bool)
    ensures Apart(Greedy(s, hits), hits)
  {
    if s != [] {
      GreedyIsApart(s[..|s| - 1], hits);
    }
  }

  /** More suppression changes nothing exactly when it does not concern what was kept. */
  lemma {:induction false} MoreHitsIffApart(s: seq<Det>, more: (Det, Det) -> bool, hits: (Det, Det) -> bool)
    requires forall a, b :: a in s && b in s && hits(a, b) ==> more(a, b)
    ensures Greedy(s, more) == Greedy(s, hits) <==> Apart(Greedy(s, hits), more)
  {
    GreedyIsApart(s, more);
    if s != [] && Apart(Greedy(s, hits), more) {
      var front, d := s[..|s| - 1], s[|s| - 1];
      var kept := Greedy(front, hits);
      assert Greedy(s, hits) == kept || Greedy(s, hits) == kept + [d];
      assert Apart(kept, more) by {
        assert forall i :: 0 <= i < |kept| ==> Greedy(s, hits)[i] == kept[i];
      }
      MoreHitsIffApart(front, more, hits);
      SameFate(front, kept, d, more, hits);
    }
  }

  /** The last candidate meets the same fate under both. */
  lemma SameFate(front: seq<Det>, kept: seq<Det>, d: Det, more: (Det, Det) -> bool, hits: (Det, Det) -> bool)
    requires kept == Greedy(front, hits)
    requires forall a :: a in front && hits(a, d) ==> more(a, d)
    requires !HitByAny(kept, d, hits) ==> Apart(kept + [d], more)
    ensures HitByAny(kept, d, hits) == HitByAny(kept, d, more)
  {
    if HitByAny(kept, d, hits) {
      var k :| 0 <= k < |kept| && hits(kept[k], d);
      GreedyFrom(front, hits, kept[k]);
    } else {
      forall k | 0 <= k < |kept|
        ensures !more(kept[k], d)
      {
        assert (kept + [d])[k] == kept[k] && (kept + [d])[|kept|] == d;
      }
    }
  }

  /** After the shift, no kept detection hits a later kept one of another class. */
  predicate ClassesApart(kept: seq<Det>, offset: real, thres: real) {
    forall i, j :: 0 <= i < j < |kept| && kept[i].cls != kept[j].cls ==> !Hits(kept[i], kept[j], offset, thres)
  }

  /** When the trick preserves meaning, for any boxes: exactly when the shift keeps the detections that
      the passes per class keep from hitting each other across classes. */
  lemma TrickRightIffClassesApart(x: seq<Det>, offset: real, thres: real)
    requires DistinctRows(x)
    ensures Suppressed(x, offset, thres) == Merged(x, thres) <==> ClassesApart(Merged(x, thres), offset, thres)
  {
    var more := (a: Det, b: Det) => Hits(a, b, offset, thres);
    var hits := (a: Det, b: Det) => a.cls == b.cls && Hits(a, b, 0.0, thres);
    forall a: Det, b: Det | a.cls == b.cls
      ensures more(a, b) == hits(a, b)
    {
      SameClassHits(a, b, offset, thres);
    }
    MergedIsOnePass(x, hits, thres);
    MoreHitsIffApart(ByScore(x), more, hits);
    GreedyIsApart(ByScore(x), hits);
    ApartAcross(Merged(x, thres), more, hits);
  }

  lemma ApartAcross(kept: seq<Det>, more: (Det, Det) -> bool, hits: (Det, Det) -> bool)
    requires Apart(kept, hits) && forall a: Det, b: Det :: a.cls == b.cls ==> more(a, b) == hits(a, b)
    ensures Apart(kept, more) <==>
            forall i, j :: 0 <= i < j < |kept| && kept[i].cls != kept[j].cls ==> !more(kept[i], kept[j])
  {
  }

  /** Class-offset suppression is per-class suppression, for boxes in the 7680-pixel frame. */
  lemma ClassOffsetIsPerClass(x: seq<Det>, thres: real)
    requires DistinctRows(x) && thres >= 0.0 && forall d :: d in x ==> InFrame(d.box)
    ensures Suppressed(x, MAX_WH, thres) == Merged(x, thres)
  {
    TrickRightIffClassesApart(x, MAX_WH, thres);
    var kept := Merged(x, thres);
    forall i, j | 0 <= i < j < |kept| && kept[i].cls != kept[j].cls
      ensures !Hits(kept[i], kept[j], MAX_WH, thres)
    {
      KeptIsCandidate(x, thres, kept[i]);
      KeptIsCandidate(x, thres, kept[j]);
      ShiftApart(kept[i], kept[j], thres);
    }
  }

  lemma KeptIsCandidate(x: seq<Det>, thres: real, d: Det)
    requires d in Merged(x, thres)
    ensures d in x
  {
    FilterMember(ByScore(x), (e: Det) => e in Suppressed(OfClass(x, e.cls), 0.0, thres), d);
    SortBySorts(x, ConfOf());
    SameRows(ByScore(x), x);
  }

  const INSIDE := Det(Box(7660.0, 0.0, 7680.0, 20.0), 0.9, 0, 0)
  const OUTSIDE := Det(Box(-20.0, -7680.0, 0.0, -7660.0), 0.8, 1, 1)

  /** Outside the frame the trick can fail: this detection of class 1 lies, once shifted, on a better
      one of class 0. */
  lemma TrickCanFail()
    ensures Suppressed([INSIDE, OUTSIDE], MAX_WH, 0.45) != Merged([INSIDE, OUTSIDE], 0.45)
  {
    OutsideHit();
    PairSorted(INSIDE, OUTSIDE);
    FirstKept(INSIDE, OUTSIDE, (d, e) => Hits(d, e, MAX_WH, 0.45));
    PairMerged(INSIDE, OUTSIDE, 0.45);
  }

  lemma OutsideHit()
    ensures Hits(INSIDE, OUTSIDE, MAX_WH, 0.45)
  {
    assert Corner(INSIDE, MAX_WH) == 0.0 && Corner(OUTSIDE, MAX_WH) == 7680.0;
    assert Shift(INSIDE.box, 0.0) == INSIDE.box && Shift(OUTSIDE.box, 7680.0) == INSIDE.box;
    EqualSuppress(INSIDE.box, 0.45);
  }

  lemma FirstKept(a: Det, b: Det, hits: (Det, Det) -> bool)
    requires hits(a, b)
    ensures Greedy([a, b], hits) == [a]
  {
    assert [a, b][..1] == [a];
    OneKept(a, hits);
    assert hits([a][0], b);
  }

  lemma PairSorted(a: Det, b: Det)
    requires a.conf > b.conf
    ensures ByScore([a, b]) == [a, b] && ByScore([a]) == [a] && ByScore([b]) == [b]
  {
    var key := ConfOf();
    assert key(a) == a.conf && key(b) == b.conf;
    assert [a, b][1..] == [b] && [b][1..] == [] && [a][1..] == [];
    assert SortBy([], key) == [];
    assert SortBy([b], key) == Insert(b, [], key) == [b];
    assert SortBy([a], key) == Insert(a, [], key) == [a];
    assert SortBy([a, b], key) == Insert(a, [b], key) == [a] + [b];
  }

  lemma OneKept(a: Det, hits: (Det, Det) -> bool)
    ensures Greedy([a], hits) == [a]
  {
    assert [a][..0] == [];
    assert Greedy([a][..0], hits) == [];
  }

  lemma FilterPair(a: Det, b: Det, p: Det -> bool)
    ensures Filter([a, b], p) == (if p(a) then [a] else []) + (if p(b) then [b] else [])
  {
    assert [a, b][..1] == [a] && [a][..0] == [];
    assert Filter([a], p) == if p(a) then [a] else [];
  }

  lemma PairMerged(a: Det, b: Det, thres: real)
    requires a.cls != b.cls && a.conf > b.conf
    ensures |Merged([a, b], thres)| == 2
  {
    PairSorted(a, b);
    FilterPair(a, b, (d: Det) => d.cls == a.cls);
    FilterPair(a, b, (d: Det) => d.cls == b.cls);
    assert OfClass([a, b], a.cls) == [a] && OfClass([a, b], b.cls) == [b];
    OneKept(a, (d, e) => Hits(d, e, 0.0, thres));
    OneKept(b, (d, e) => Hits(d, e, 0.0, thres));
    assert Suppressed([a], 0.0, thres) == [a] && Suppressed([b], 0.0, thres) == [b];
    FilterPair(a, b, (d: Det) => d in Suppressed(OfClass([a, b], d.cls), 0.0, thres));
  }

  // ---- The whole function ----

  /** One row of the network's prediction: box centre and size, objectness, class scores. */
  datatype Pred = Pred(x: real, y: real, w: real, h: real, obj: real, scores: seq<real>)

  datatype Settings = Settings(confThres: real, iouThres: real, classes: Option<set<nat>>, agnostic: bool,
                               multiLabel: bool, maxDet: nat)

  function Corners(p: Pred): Box {
    Box(p.x - p.w / 2.0, p.y - p.h / 2.0, p.x + p.w / 2.0, p.y + p.h / 2.0)
  }

  /** Index of the greatest of the first `n` scores, the first one on ties. */
  function Best(scores: seq<real>, n: nat): (k: nat)
    requires 0 < n <= |scores|
    ensures k < n && forall j :: 0 <= j < n ==> scores[j] <= scores[k]
  {
    if n == 1 then 0
    else
      var k := Best(scores, n - 1);
      if scores[n - 1] > scores[k] then n - 1 else k
  }

  /** The candidates one row gives: its best class, or every class above the threshold. */
  function Labelled(p: Pred, confThres: real, n: nat): seq<(Box, real, nat)>
    requires n <= |p.scores|
  {
    if n == 0 then []
    else
      var conf := Times(p.scores[n - 1], p.obj);
      Labelled(p, confThres, n - 1) + if conf > confThres then [(Corners(p), conf, n - 1)] else []
  }

  function FromRow(p: Pred, st: Settings): seq<(Box, real, nat)>
    requires p.scores != []
  {
    if p.obj <= st.confThres then []
    else if st.multiLabel && |p.scores| > 1 then Labelled(p, st.confThres, |p.scores|)
    else
      var confs := seq(|p.scores|, i requires 0 <= i < |p.scores| => Times(p.scores[i], p.obj));
      var j := Best(confs, |confs|);
      if confs[j] > st.confThres then [(Corners(p), confs[j], j)] else []
  }

  function Wanted(c: nat, classes: Option<set<nat>>): bool {
    match classes case None => true case Some(cs) => c in cs
  }

  /** The candidate matrix, its rows numbered. */
  function Number(rows: seq<(Box, real, nat)>, classes: Option<set<nat>>): seq<Det> {
    if rows == [] then []
    else
      var front, r := Number(rows[..|rows| - 1], classes), rows[|rows| - 1];
      if Wanted(r.2, classes) then front + [Det(r.0, r.1, r.2, |front|)] else front
  }

  function Rows(image: seq<Pred>, st: Settings): seq<(Box, real, nat)>
    requires forall i :: 0 <= i < |image| ==> image[i].scores != []
  {
    if image == [] then []
    else Rows(image[..|image| - 1], st) + FromRow(image[|image| - 1], st)
  }

  /** No more than `MAX_NMS` candidates, the best ones. */
  function Capped(x: seq<Det>): seq<Det> {
    if |x| <= MAX_NMS then x
    else
      SortBySorts(x, ConfOf());
      assert |ByScore(x)| == |multiset(x)|;
      ByScore(x)[..MAX_NMS]
  }

  function Candidates(image: seq<Pred>, st: Settings): seq<Det>
    requires forall i :: 0 <= i < |image| ==> image[i].scores != []
  {
    var x := Number(Rows(image, st), st.classes);
    Capped(x)
  }

  /** `non_max_suppression` on one image. */
  function Detect(image: seq<Pred>, st: Settings): seq<Det>
    requires forall i :: 0 <= i < |image| ==> image[i].scores != []
  {
    var kept := Suppressed(Candidates(image, st), if st.agnostic then 0.0 else MAX_WH, st.iouThres);
    if |kept| > st.maxDet then kept[..st.maxDet] else kept
  }

  /** One image; without candidates it stays empty. */
  method SuppressImage(image: seq<Pred>, st: Settings) returns (kept: seq<Det>)
    requires forall i :: 0 <= i < |image| ==> image[i].scores != []
    ensures kept == Detect(image, st)
  {
    var x := Candidates(image, st);
    if |x| == 0 {
      return [];
    }
    kept := Suppressed(x, if st.agnostic then 0.0 else MAX_WH, st.iouThres);
    if |kept| > st.maxDet {
      kept := kept[..st.maxDet];
    }
  }

  method NonMaxSuppression(prediction: seq<seq<Pred>>, st: Settings) returns (output: seq<seq<Det>>)
    requires forall xi, i :: 0 <= xi < |prediction| && 0 <= i < |prediction[xi]| ==> prediction[xi][i].scores != []
    ensures |output| == |prediction|
    ensures forall xi :: 0 <= xi < |prediction| ==> output[xi] == Detect(prediction[xi], st)
  {
    output := seq(|prediction|, _ => []);
    for xi := 0 to |prediction|
      invariant |output| == |prediction|
      invariant forall k :: 0 <= k < xi ==> output[k] == Detect(prediction[k], st)
    {
      var kept := SuppressImage(prediction[xi], st);
      output := output[xi := kept];
    }
  }

  lemma {:induction false} NumberRows(rows: seq<(Box, real, nat)>, classes: Option<set<nat>>)
    ensures var x := Number(rows, classes);
            && DistinctRows(x)
            && forall k :: 0 <= k < |x| ==> (x[k].row == k && exists r :: r in rows && x[k].box == r.0)
  {
    if rows != [] {
      NumberRows(rows[..|rows| - 1], classes);
      assert rows == rows[..|rows| - 1] + [rows[|rows| - 1]];
    }
  }

  lemma {:induction false} LabelledBox(p: Pred, confThres: real, n: nat)
    requires n <= |p.scores|
    ensures forall r :: r in Labelled(p, confThres, n) ==> r.0 == Corners(p)
  {
    if n > 0 {
      LabelledBox(p, confThres, n - 1);
    }
  }

  predicate ImageInFrame(image: seq<Pred>, confThres: real) {
    forall i :: 0 <= i < |image| && image[i].obj > confThres ==> InFrame(Corners(image[i]))
  }

  lemma {:induction false} RowsInFrame(image: seq<Pred>, st: Settings)
    requires ImageInFrame(image, st.confThres) && forall i :: 0 <= i < |image| ==> image[i].scores != []
    ensures forall r :: r in Rows(image, st) ==> InFrame(r.0)
  {
    if image != [] {
      RowsInFrame(image[..|image| - 1], st);
      LabelledBox(image[|image| - 1], st.confThres, |image[|image| - 1].scores|);
    }
  }

  lemma CandidatesOk(image: seq<Pred>, st: Settings)
    requires ImageInFrame(image, st.confThres) && forall i :: 0 <= i < |image| ==> image[i].scores != []
    ensures DistinctRows(Candidates(image, st)) && forall d :: d in Candidates(image, st) ==> InFrame(d.box)
  {
    var rows := Rows(image, st);
    var x := Number(rows, st.classes);
    RowsInFrame(image, st);
    NumberRows(rows, st.classes);
    CappedOk(x);
  }

  lemma CappedOk(x: seq<Det>)
    requires DistinctRows(x)
    ensures DistinctRows(Capped(x)) && forall d :: d in Capped(x) ==> d in x
  {
    if |x| > MAX_NMS {
      SortBySorts(x, ConfOf());
      SameRows(ByScore(x), x);
      DistinctRowsSorted(x);
      assert |ByScore(x)| == |multiset(ByScore(x))| == |multiset(x)| == |x|;
      PrefixRows(ByScore(x), MAX_NMS);
    }
  }

  lemma PrefixRows(s: seq<Det>, n: nat)
    requires DistinctRows(s) && n <= |s|
    ensures DistinctRows(s[..n]) && forall d :: d in s[..n] ==> d in s
  {
  }

  /** What the function returns for an image: per class, its own suppression; merged by score; the best
      `maxDet` of them. */
  lemma DetectIsPerClass(image: seq<Pred>, st: Settings)
    requires ImageInFrame(image, st.confThres) && forall i :: 0 <= i < |image| ==> image[i].scores != []
    requires !st.agnostic && st.iouThres >= 0.0
    ensures var merged := Merged(Candidates(image, st), st.iouThres);
            Detect(image, st) == if |merged| > st.maxDet then merged[..st.maxDet] else merged
  {
    CandidatesOk(image, st);
    ClassOffsetIsPerClass(Candidates(image, st), st.iouThres);
  }

  // ---- Which candidates an image has ----

  /** Prediction `p` scores class `c` above the threshold: `box` has its centre and size, `conf` is objectness times
      class score; without several labels per box, `c` is the first of the best classes. */
  predicate Scores(p: Pred, st: Settings, box: Box, conf: real, c: nat) {
    && p.obj > st.confThres && c < |p.scores| && conf == Times(p.scores[c], p.obj) && conf > st.confThres
    && box.x1 + box.x2 == 2.0 * p.x && box.x2 - box.x1 == p.w && box.y1 + box.y2 == 2.0 * p.y && box.y2 - box.y1 == p.h
    && ((st.multiLabel && |p.scores| > 1) ||
        forall j :: 0 <= j < |p.scores| ==>
          Times(p.scores[j], p.obj) <= conf && (j < c ==> Times(p.scores[j], p.obj) < conf))
  }

  /** Rows in the order of the image's predictions, and of a prediction's classes. */
  predicate InOrder(src: seq<nat>, rows: seq<(Box, real, nat)>) {
    |src| == |rows| && forall k, l :: 0 <= k < l < |src| ==>
        src[k] < src[l] || (src[k] == src[l] && rows[k].2 < rows[l].2)
  }

  /** The rows are exactly the scored classes of the predictions they come from. */
  ghost predicate RowsAre(image: seq<Pred>, st: Settings, src: seq<nat>, rows: seq<(Box, real, nat)>) {
    && InOrder(src, rows)
    && (forall k :: 0 <= k < |src| ==>
          src[k] < |image| && Scores(image[src[k]], st, rows[k].0, rows[k].1, rows[k].2))
    && forall i: nat, box, conf, c: nat :: i < |image| && Scores(image[i], st, box, conf, c) ==>
         HasRow(src, rows, i, box, conf, c)
  }

  predicate HasRow(src: seq<nat>, rows: seq<(Box, real, nat)>, i: nat, box: Box, conf: real, c: nat)
    requires |src| == |rows|
  {
    exists k :: 0 <= k < |src| && src[k] == i && rows[k] == (box, conf, c)
  }

  lemma CornersAre(p: Pred, box: Box)
    ensures box == Corners(p) <==>
              && box.x1 + box.x2 == 2.0 * p.x && box.x2 - box.x1 == p.w
              && box.y1 + box.y2 == 2.0 * p.y && box.y2 - box.y1 == p.h
  {
  }

  lemma {:induction false} BestIsFirst(scores: seq<real>, n: nat)
    requires 0 < n <= |scores|
    ensures forall j :: 0 <= j < Best(scores, n) ==> scores[j] < scores[Best(scores, n)]
  {
    if n > 1 { BestIsFirst(scores, n - 1); }
  }

  /** Scored classes of one prediction, below `n` and in order. */
  predicate LabelRows(p: Pred, confThres: real, n: nat, rows: seq<(Box, real, nat)>)
    requires n <= |p.scores|
  {
    && (forall k :: 0 <= k < |rows| ==>
          && rows[k].2 < n && rows[k].0 == Corners(p)
          && rows[k].1 == Times(p.scores[rows[k].2], p.obj) && rows[k].1 > confThres)
    && (forall k, l :: 0 <= k < l < |rows| ==> rows[k].2 < rows[l].2)
  }

  lemma LabelNext(p: Pred, confThres: real, n: nat, rows: seq<(Box, real, nat)>, r: (Box, real, nat))
    requires n < |p.scores| && LabelRows(p, confThres, n, rows)
    requires r == (Corners(p), Times(p.scores[n], p.obj), n)
    ensures LabelRows(p, confThres, n + 1, rows)
    ensures r.1 > confThres ==> LabelRows(p, confThres, n + 1, rows + [r])
  {
  }

  lemma {:induction false} LabelledAre(p: Pred, confThres: real, n: nat)
    requires n <= |p.scores|
    ensures LabelRows(p, confThres, n, Labelled(p, confThres, n))
  {
    if n > 0 {
      LabelledAre(p, confThres, n - 1);
      var front := Labelled(p, confThres, n - 1);
      LabelNext(p, confThres, n - 1, front, (Corners(p), Times(p.scores[n - 1], p.obj), n - 1));
      assert front + [] == front;
    }
  }

  lemma {:induction false} LabelledHas(p: Pred, confThres: real, n: nat, c: nat)
    requires c < n <= |p.scores| && Times(p.scores[c], p.obj) > confThres
    ensures (Corners(p), Times(p.scores[c], p.obj), c) in Labelled(p, confThres, n)
  {
    var front, all := Labelled(p, confThres, n - 1), Labelled(p, confThres, n);
    var row := (Corners(p), Times(p.scores[c], p.obj), c);
    if c < n - 1 {
      LabelledHas(p, confThres, n - 1, c);
      var k :| 0 <= k < |front| && front[k] == row;
      assert all[k] == row;
    } else {
      assert all[|front|] == row;
    }
  }

  /** One prediction's rows. */
  lemma RowIs(p: Pred, st: Settings)
    requires p.scores != []
    ensures var rows := FromRow(p, st);
            && (forall k :: 0 <= k < |rows| ==> Scores(p, st, rows[k].0, rows[k].1, rows[k].2))
            && (forall k, l :: 0 <= k < l < |rows| ==> rows[k].2 < rows[l].2)
            && forall box, conf, c: nat :: Scores(p, st, box, conf, c) ==> (box, conf, c) in rows
  {
    var rows := FromRow(p, st);
    if p.obj > st.confThres && st.multiLabel && |p.scores| > 1 {
      ManyIs(p, st);
    } else if p.obj > st.confThres {
      OneIs(p, st);
    }
  }

  lemma ManyIs(p: Pred, st: Settings)
    requires p.obj > st.confThres && st.multiLabel && |p.scores| > 1
    ensures var rows := Labelled(p, st.confThres, |p.scores|);
            && (forall k :: 0 <= k < |rows| ==> Scores(p, st, rows[k].0, rows[k].1, rows[k].2))
            && (forall k, l :: 0 <= k < l < |rows| ==> rows[k].2 < rows[l].2)
            && forall box, conf, c: nat :: Scores(p, st, box, conf, c) ==> (box, conf, c) in rows
  {
    LabelledAre(p, st.confThres, |p.scores|);
    forall box, conf, c: nat | Scores(p, st, box, conf, c)
      ensures (box, conf, c) in Labelled(p, st.confThres, |p.scores|)
    {
      CornersAre(p, box);
      LabelledHas(p, st.confThres, |p.scores|, c);
    }
    forall k | 0 <= k < |Labelled(p, st.confThres, |p.scores|)|
      ensures var r := Labelled(p, st.confThres, |p.scores|)[k]; Scores(p, st, r.0, r.1, r.2)
    {
      CornersAre(p, Labelled(p, st.confThres, |p.scores|)[k].0);
    }
  }

  lemma OneIs(p: Pred, st: Settings)
    requires p.obj > st.confThres && !(st.multiLabel && |p.scores| > 1) && p.scores != []
    ensures var rows := FromRow(p, st);
            && |rows| <= 1 && (forall k :: 0 <= k < |rows| ==> Scores(p, st, rows[k].0, rows[k].1, rows[k].2))
            && forall box, conf, c: nat :: Scores(p, st, box, conf, c) ==> (box, conf, c) in rows
  {
    var confs := seq(|p.scores|, i requires 0 <= i < |p.scores| => Times(p.scores[i], p.obj));
    var best := Best(confs, |confs|);
    BestIsFirst(confs, |confs|);
    CornersAre(p, Corners(p));
    assert forall j :: 0 <= j < |p.scores| ==> Times(p.scores[j], p.obj) == confs[j];
    forall box, conf, c: nat | Scores(p, st, box, conf, c)
      ensures (box, conf, c) in FromRow(p, st)
    {
      CornersAre(p, box);
      FirstBest(confs, best, c);
    }
  }

  /** There is one first best class. */
  lemma FirstBest(confs: seq<real>, j: nat, c: nat)
    requires j < |confs| && c < |confs|
    requires forall i :: 0 <= i < |confs| ==> confs[i] <= confs[j] && (i < j ==> confs[i] < confs[j])
    requires forall i :: 0 <= i < |confs| ==> confs[i] <= confs[c] && (i < c ==> confs[i] < confs[c])
    ensures c == j
  {
    assert confs[c] == confs[j];
  }

  lemma {:induction false} ImageRowsAre(image: seq<Pred>, st: Settings) returns (src: seq<nat>)
    requires forall i :: 0 <= i < |image| ==> image[i].scores != []
    ensures RowsAre(image, st, src, Rows(image, st))
  {
    if image == [] {
      src := [];
    } else {
      var front, p := image[..|image| - 1], image[|image| - 1];
      var before := ImageRowsAre(front, st);
      RowIs(p, st);
      var rows, more := Rows(front, st), FromRow(p, st);
      src := before + seq(|more|, _ => |front|);
      RowsExtend(front, st, before, rows, p, more);
      assert front + [p] == image;
    }
  }

  lemma RowsExtend(front: seq<Pred>, st: Settings, before: seq<nat>, rows: seq<(Box, real, nat)>, p: Pred,
                   more: seq<(Box, real, nat)>)
    requires RowsAre(front, st, before, rows)
    requires forall k :: 0 <= k < |more| ==> Scores(p, st, more[k].0, more[k].1, more[k].2)
    requires forall k, l :: 0 <= k < l < |more| ==> more[k].2 < more[l].2
    requires forall box, conf, c: nat :: Scores(p, st, box, conf, c) ==> (box, conf, c) in more
    ensures RowsAre(front + [p], st, before + seq(|more|, _ => |front|), rows + more)
  {
    var image, src, all := front + [p], before + seq(|more|, _ => |front|), rows + more;
    forall i: nat, box, conf, c: nat | i < |image| && Scores(image[i], st, box, conf, c)
      ensures HasRow(src, all, i, box, conf, c)
    {
      if i < |front| {
        assert image[i] == front[i];
        assert HasRow(before, rows, i, box, conf, c);
        var k :| 0 <= k < |before| && before[k] == i && rows[k] == (box, conf, c);
        assert src[k] == i && all[k] == (box, conf, c);
      } else {
        var k :| 0 <= k < |more| && more[k] == (box, conf, c);
        assert src[|rows| + k] == i && all[|rows| + k] == (box, conf, c);
      }
    }
  }

  /** Numbering keeps the rows of wanted classes, in order. */
  predicate Picks(rows: seq<(Box, real, nat)>, classes: Option<set<nat>>, pos: seq<nat>, x: seq<Det>) {
    && |pos| == |x| && (forall k, l :: 0 <= k < l < |pos| ==> pos[k] < pos[l])
    && (forall k :: 0 <= k < |pos| ==> pos[k] < |rows| && (classes.None? || rows[pos[k]].2 in classes.value) &&
                                       x[k] == Det(rows[pos[k]].0, rows[pos[k]].1, rows[pos[k]].2, k))
    && forall j :: 0 <= j < |rows| && (classes.None? || rows[j].2 in classes.value) ==> j in pos
  }

  lemma {:induction false} NumberPicks(rows: seq<(Box, real, nat)>, classes: Option<set<nat>>) returns (pos: seq<nat>)
    ensures Picks(rows, classes, pos, Number(rows, classes))
  {
    if rows == [] {
      pos := [];
    } else {
      var n := |rows| - 1;
      pos := NumberPicks(rows[..n], classes);
      PicksNext(rows[..n], rows[n], classes, pos, Number(rows[..n], classes));
      assert rows[..n] + [rows[n]] == rows;
      if Wanted(rows[n].2, classes) {
        pos := pos + [n];
      }
    }
  }

  lemma PicksNext(rows: seq<(Box, real, nat)>, r: (Box, real, nat), classes: Option<set<nat>>, pos: seq<nat>,
                  x: seq<Det>)
    requires Picks(rows, classes, pos, x)
    ensures if classes.None? || r.2 in classes.value
            then Picks(rows + [r], classes, pos + [|rows|], x + [Det(r.0, r.1, r.2, |x|)])
            else Picks(rows + [r], classes, pos, x)
  {
    forall j | 0 <= j < |rows + [r]| && (classes.None? || (rows + [r])[j].2 in classes.value)
      ensures j in pos + [|rows|] && (j < |rows| ==> j in pos)
    {
      if j < |rows| {
        assert (rows + [r])[j] == rows[j];
      } else {
        assert (pos + [|rows|])[|pos|] == j;
      }
    }
  }

  /** The candidates are exactly the scored classes that are wanted: numbered in the order of predictions and
      classes, each from the prediction `src[k]`. */
  ghost predicate CandidatesAre(image: seq<Pred>, st: Settings, src: seq<nat>, x: seq<Det>) {
    && |src| == |x|
    && (forall k :: 0 <= k < |x| ==>
          && x[k].row == k && src[k] < |image| && Scores(image[src[k]], st, x[k].box, x[k].conf, x[k].cls)
          && (st.classes.None? || x[k].cls in st.classes.value))
    && (forall k, l :: 0 <= k < l < |x| ==> src[k] < src[l] || (src[k] == src[l] && x[k].cls < x[l].cls))
    && forall i: nat, box, conf, c: nat ::
         i < |image| && Scores(image[i], st, box, conf, c) && (st.classes.None? || c in st.classes.value) ==>
         HasCandidate(src, x, i, box, conf, c)
  }

  predicate HasCandidate(src: seq<nat>, x: seq<Det>, i: nat, box: Box, conf: real, c: nat)
    requires |src| == |x|
  {
    exists k :: 0 <= k < |x| && src[k] == i && x[k] == Det(box, conf, c, k)
  }

  lemma NumberAre(image: seq<Pred>, st: Settings, src: seq<nat>, rows: seq<(Box, real, nat)>, pos: seq<nat>,
                  x: seq<Det>) returns (from: seq<nat>)
    requires RowsAre(image, st, src, rows) && Picks(rows, st.classes, pos, x)
    ensures CandidatesAre(image, st, from, x)
  {
    from := seq(|pos|, k requires 0 <= k < |pos| => src[pos[k]]);
    forall i: nat, box, conf, c: nat |
      i < |image| && Scores(image[i], st, box, conf, c) && (st.classes.None? || c in st.classes.value)
      ensures HasCandidate(from, x, i, box, conf, c)
    {
      assert HasRow(src, rows, i, box, conf, c);
      PickedHas(st, src, rows, pos, x, from, i, box, conf, c);
    }
  }

  lemma PickedHas(st: Settings, src: seq<nat>, rows: seq<(Box, real, nat)>, pos: seq<nat>, x: seq<Det>,
                  from: seq<nat>, i: nat, box: Box, conf: real, c: nat)
    requires |src| == |rows| && Picks(rows, st.classes, pos, x) && HasRow(src, rows, i, box, conf, c)
    requires |from| == |pos| && forall k :: 0 <= k < |pos| ==> from[k] == src[pos[k]]
    requires st.classes.None? || c in st.classes.value
    ensures HasCandidate(from, x, i, box, conf, c)
  {
    var j :| 0 <= j < |src| && src[j] == i && rows[j] == (box, conf, c);
    assert j in pos;
    var k :| 0 <= k < |pos| && pos[k] == j;
    assert from[k] == i && x[k] == Det(box, conf, c, k);
  }

  /** Which candidates an image has, before the cap. */
  lemma ImageCandidates(image: seq<Pred>, st: Settings) returns (src: seq<nat>)
    requires forall i :: 0 <= i < |image| ==> image[i].scores != []
    ensures CandidatesAre(image, st, src, Number(Rows(image, st), st.classes))
  {
    var rowSrc := ImageRowsAre(image, st);
    var pos := NumberPicks(Rows(image, st), st.classes);
    src := NumberAre(image, st, rowSrc, Rows(image, st), pos, Number(Rows(image, st), st.classes));
  }

  /** The cap: at most 30000 of them are left, none of them scoring less than one that was dropped. */
  lemma CapKeepsBest(image: seq<Pred>, st: Settings)
    requires forall i :: 0 <= i < |image| ==> image[i].scores != []
    ensures var all, x := Number(Rows(image, st), st.classes), Candidates(image, st);
            && (|all| <= 30000 ==> x == all) && (|all| > 30000 ==> |x| == 30000)
            && multiset(x) <= multiset(all)
            && forall d, e :: d in x && e in multiset(all) - multiset(x) ==> d.conf >= e.conf
  {
    var all := Number(Rows(image, st), st.classes);
    if |all| > MAX_NMS {
      CapSplits(all);
    }
  }

  lemma CapSplits(all: seq<Det>)
    requires |all| > MAX_NMS
    ensures |Capped(all)| == MAX_NMS && multiset(Capped(all)) <= multiset(all)
    ensures forall d, e :: d in Capped(all) && e in multiset(all) - multiset(Capped(all)) ==> d.conf >= e.conf
  {
    var s := ByScore(all);
    ByScoreSorts(all, d => true);
    assert |s| == |multiset(s)| == |multiset(all)| == |all|;
    var head, tail := s[..MAX_NMS], s[MAX_NMS..];
    Cut(s, MAX_NMS);
    forall d, e | d in head && e in multiset(all) - multiset(head)
      ensures d.conf >= e.conf
    {
      assert e in tail;
      HeadBeatsTail(s, MAX_NMS, d, e);
    }
  }

  lemma Cut<T>(s: seq<T>, n: nat)
    requires n <= |s|
    ensures multiset(s[..n]) <= multiset(s) && multiset(s) - multiset(s[..n]) == multiset(s[n..])
  {
    assert s == s[..n] + s[n..];
  }

  lemma HeadBeatsTail(s: seq<Det>, n: nat, d: Det, e: Det)
    requires n <= |s| && d in s[..n] && e in s[n..]
    requires forall i, j :: 0 <= i < j < |s| ==> s[i].conf >= s[j].conf
    ensures d.conf >= e.conf
  {
    var i :| 0 <= i < n && s[..n][i] == d;
    var j :| 0 <= j < |s| - n && s[n..][j] == e;
    assert s[i] == d && s[n + j] == e;
  }

  /** Across classes, what is returned is the best `maxDet` of the candidates that no better one which stays
      suppresses: boxes are compared where they are. */
  lemma AgnosticKeeps(image: seq<Pred>, st: Settings, i: nat)
    requires st.agnostic
    requires (forall k :: 0 <= k < |image| ==> image[k].scores != []) && i < |ByScore(Candidates(image, st))|
    ensures var s, kept := ByScore(Candidates(image, st)), Suppressed(Candidates(image, st), 0.0, st.iouThres);
            && Detect(image, st) == (if |kept| > st.maxDet then kept[..st.maxDet] else kept)
            && (s[i] in kept <==>
                !exists j :: 0 <= j < i && s[j] in kept && Suppresses(s[j].box, s[i].box, st.iouThres))
  {
    var x := Candidates(image, st);
    var s, hits := ByScore(x), (a, b) => Hits(a, b, 0.0, st.iouThres);
    NumberRows(Rows(image, st), st.classes);
    CappedOk(Number(Rows(image, st), st.classes));
    DistinctRowsSorted(x);
    GreedyKeeps(s, hits, i);
    forall j | 0 <= j < i
      ensures hits(s[j], s[i]) == Suppresses(s[j].box, s[i].box, st.iouThres)
    {
      Unshifted(s[j]);
      Unshifted(s[i]);
    }
  }

  lemma Unshifted(d: Det)
    ensures Shift(d.box, Corner(d, 0.0)) == d.box
  {
    assert Corner(d, 0.0) == 0.0;
  }
}
