/** The confusion matrix (yolov5/utils/metrics.py, class `ConfusionMatrix`): rows are predicted classes,
    columns true ones, the last of each is background. */
module ConfusionMatrix {
  import opened Messages
  import opened Matching
  import opened TruePositives

  /** A detection and its IoU with every label of the image. */
  datatype Detection = Detection(conf: real, cls: nat, ious: seq<real>)

  /** One call's arguments: no detections at all is `None`. */
  datatype Batch = Batch(dets: Option<seq<Detection>>, labels: seq<nat>)

  predicate ValidBatch(b: Batch, nc: nat) {
    && (forall i :: 0 <= i < |b.labels| ==> b.labels[i] < nc)
    && (b.dets.Some? ==> forall d :: 0 <= d < |b.dets.value| ==>
          b.dets.value[d].cls < nc && |b.dets.value[d].ious| == |b.labels|)
  }

  /** `detections[detections[:, 4] > self.conf]`. */
  function Confident(dets: seq<Detection>, conf: real): (r: seq<Detection>)
    ensures forall d :: 0 <= d < |r| ==> r[d] in dets && r[d].conf > conf
  {
    if dets == [] then []
    else Confident(dets[..|dets| - 1], conf) + if dets[|dets| - 1].conf > conf then [dets[|dets| - 1]] else []
  }

  /** `r` are the detections above the threshold, all of them, in order: those at the positions `pos`. */
  predicate Selects(dets: seq<Detection>, conf: real, pos: seq<nat>, r: seq<Detection>) {
    && |pos| == |r| && (forall k :: 0 <= k < |pos| ==> pos[k] < |dets| && r[k] == dets[pos[k]] && r[k].conf > conf)
    && (forall k, l :: 0 <= k < l < |pos| ==> pos[k] < pos[l])
    && forall d :: 0 <= d < |dets| && dets[d].conf > conf ==> d in pos
  }

  lemma {:induction false} ConfidentSelects(dets: seq<Detection>, conf: real) returns (pos: seq<nat>)
    ensures Selects(dets, conf, pos, Confident(dets, conf))
  {
    if dets == [] {
      pos := [];
    } else {
      var before := ConfidentSelects(dets[..|dets| - 1], conf);
      pos := SelectLast(dets, conf, before);
    }
  }

  lemma SelectLast(dets: seq<Detection>, conf: real, before: seq<nat>) returns (pos: seq<nat>)
    requires dets != []
    requires Selects(dets[..|dets| - 1], conf, before, Confident(dets[..|dets| - 1], conf))
    ensures Selects(dets, conf, pos, Confident(dets, conf))
  {
    var front, last := dets[..|dets| - 1], dets[|dets| - 1];
    assert front + [last] == dets;
    pos := SelectStep(front, last, conf, before);
  }

  lemma SelectStep(front: seq<Detection>, x: Detection, conf: real, before: seq<nat>) returns (pos: seq<nat>)
    requires Selects(front, conf, before, Confident(front, conf))
    ensures Selects(front + [x], conf, pos, Confident(front + [x], conf))
  {
    ConfidentNext(front, x, conf);
    SelectsNext(front, x, conf, before, Confident(front, conf));
    pos := if x.conf > conf then before + [|front|] else before;
  }

  lemma ConfidentNext(front: seq<Detection>, x: Detection, conf: real)
    ensures Confident(front + [x], conf) ==
            if x.conf > conf then Confident(front, conf) + [x] else Confident(front, conf)
  {
    assert (front + [x])[..|front|] == front;
  }

  lemma SelectsNext(dets: seq<Detection>, x: Detection, conf: real, pos: seq<nat>, r: seq<Detection>)
    requires Selects(dets, conf, pos, r)
    ensures if x.conf > conf then Selects(dets + [x], conf, pos + [|dets|], r + [x])
            else Selects(dets + [x], conf, pos, r)
  {
    forall d | 0 <= d < |dets + [x]| && (dets + [x])[d].conf > conf
      ensures d in pos + [|dets|] && (d < |dets| ==> d in pos)
    {
      if d < |dets| {
        assert (dets + [x])[d] == dets[d];
      } else {
        assert (pos + [|dets|])[|pos|] == d;
      }
    }
  }

  /** Detections above the threshold, of one class. */
  function ConfidentOf(dets: seq<Detection>, conf: real, r: nat): set<nat> {
    set d: nat | d < |dets| && dets[d].conf > conf && dets[d].cls == r
  }

  lemma {:induction false} ConfidentCount(dets: seq<Detection>, conf: real, r: nat)
    ensures |IndicesOf(ClassesOf(Confident(dets, conf)), r)| == |ConfidentOf(dets, conf, r)|
  {
    if dets == [] {
      assert ConfidentOf(dets, conf, r) == {};
    } else {
      ConfidentCount(dets[..|dets| - 1], conf, r);
      CountWhole(dets, conf, r);
    }
  }

  lemma CountWhole(dets: seq<Detection>, conf: real, r: nat)
    requires dets != []
    requires |IndicesOf(ClassesOf(Confident(dets[..|dets| - 1], conf)), r)| ==
             |ConfidentOf(dets[..|dets| - 1], conf, r)|
    ensures |IndicesOf(ClassesOf(Confident(dets, conf)), r)| == |ConfidentOf(dets, conf, r)|
  {
    CountLast(dets[..|dets| - 1], dets[|dets| - 1], conf, r);
    assert dets[..|dets| - 1] + [dets[|dets| - 1]] == dets;
  }

  lemma CountLast(front: seq<Detection>, last: Detection, conf: real, r: nat)
    requires |IndicesOf(ClassesOf(Confident(front, conf)), r)| == |ConfidentOf(front, conf, r)|
    ensures |IndicesOf(ClassesOf(Confident(front + [last], conf)), r)| == |ConfidentOf(front + [last], conf, r)|
  {
    ConfidentOfNext(front, last, conf, r);
    ConfidentNext(front, last, conf);
    ClassesNext(Confident(front, conf), last, r);
  }

  lemma ConfidentOfNext(front: seq<Detection>, x: Detection, conf: real, r: nat)
    ensures |ConfidentOf(front + [x], conf, r)| ==
            |ConfidentOf(front, conf, r)| + if x.conf > conf && x.cls == r then 1 else 0
  {
    var before := ConfidentOf(front, conf, r);
    assert ConfidentOf(front + [x], conf, r) == if x.conf > conf && x.cls == r then before + {|front|} else before;
  }

  lemma ClassesNext(kept: seq<Detection>, x: Detection, r: nat)
    ensures |IndicesOf(ClassesOf(kept + [x]), r)| == |IndicesOf(ClassesOf(kept), r)| + if x.cls == r then 1 else 0
  {
    assert ClassesOf(kept + [x]) == ClassesOf(kept) + [x.cls];
    IndicesNext(ClassesOf(kept), x.cls, r);
  }

  lemma IndicesNext(cls: seq<nat>, x: nat, r: nat)
    ensures |IndicesOf(cls + [x], r)| == |IndicesOf(cls, r)| + if x == r then 1 else 0
  {
    assert (cls + [x])[..|cls|] == cls;
    IndicesFrom(cls, r, |cls|);
  }

  function ClassesOf(dets: seq<Detection>): (cls: seq<nat>)
    ensures |cls| == |dets| && forall d :: 0 <= d < |cls| ==> cls[d] == dets[d].cls
  {
    seq(|dets|, d requires 0 <= d < |dets| => dets[d].cls)
  }

  // ---- Candidates: every pair above the threshold, whatever its classes, label by label ----

  function PairsOf(dets: seq<Detection>, l: nat, thres: real, n: nat): seq<Match>
    requires n <= |dets| && forall d :: 0 <= d < |dets| ==> l < |dets[d].ious|
  {
    if n == 0 then []
    else PairsOf(dets, l, thres, n - 1) +
         if dets[n - 1].ious[l] > thres then [Match(l, n - 1, dets[n - 1].ious[l])] else []
  }

  function Pairs(dets: seq<Detection>, labels: nat, thres: real): seq<Match>
    requires forall d :: 0 <= d < |dets| ==> labels <= |dets[d].ious|
  {
    if labels == 0 then []
    else Pairs(dets, labels - 1, thres) + PairsOf(dets, labels - 1, thres, |dets|)
  }

  lemma {:induction false} PairsOfHas(dets: seq<Detection>, l: nat, thres: real, n: nat, m: Match)
    requires n <= |dets| && forall d :: 0 <= d < |dets| ==> l < |dets[d].ious|
    ensures m in PairsOf(dets, l, thres, n) <==> m.gt == l && m.det < n && m.iou == dets[m.det].ious[l] > thres
  {
    if n > 0 { PairsOfHas(dets, l, thres, n - 1, m); }
  }

  lemma {:induction false} PairsHave(dets: seq<Detection>, labels: nat, thres: real, m: Match)
    requires forall d :: 0 <= d < |dets| ==> labels <= |dets[d].ious|
    ensures m in Pairs(dets, labels, thres) <==>
              m.gt < labels && m.det < |dets| && m.iou == dets[m.det].ious[m.gt] > thres
  {
    if labels > 0 {
      PairsHave(dets, labels - 1, thres, m);
      PairsOfHas(dets, labels - 1, thres, |dets|, m);
    }
  }

  function MatchesOf(dets: seq<Detection>, labels: nat, thres: real, sorter: seq<Match> -> seq<Match>): seq<Match>
    requires forall d :: 0 <= d < |dets| ==> labels <= |dets[d].ious|
  {
    ResortedMatches(Pairs(dets, labels, thres), sorter, labels, |dets|)
  }

  lemma MatchesFit(dets: seq<Detection>, labels: nat, thres: real, sorter: seq<Match> -> seq<Match>)
    requires IsSorter(sorter) && forall d :: 0 <= d < |dets| ==> labels <= |dets[d].ious|
    ensures OneToOne(MatchesOf(dets, labels, thres, sorter))
    ensures InBounds(MatchesOf(dets, labels, thres, sorter), labels, |dets|)
  {
    var ms := MatchesOf(dets, labels, thres, sorter);
    MatchesAreMatching(Pairs(dets, labels, thres), sorter, labels, |dets|);
    forall i | 0 <= i < |ms|
      ensures ms[i].gt < labels && ms[i].det < |dets|
    {
      assert ms[i] in ms;
      PairsHave(dets, labels, thres, ms[i]);
    }
  }

  // ---- The cells one call increments ----

  datatype Cell = Cell(row: nat, col: nat)

  /** The matches of label `i`: `m0 == i`. */
  function OfLabel(ms: seq<Match>, i: nat): seq<Match> {
    if ms == [] then []
    else OfLabel(ms[..|ms| - 1], i) + if ms[|ms| - 1].gt == i then [ms[|ms| - 1]] else []
  }

  lemma {:induction false} OfLabelFrom(ms: seq<Match>, i: nat, k: nat)
    requires k < |OfLabel(ms, i)|
    ensures OfLabel(ms, i)[k] in ms && OfLabel(ms, i)[k].gt == i
  {
    var front := ms[..|ms| - 1];
    if k < |OfLabel(front, i)| {
      OfLabelFrom(front, i, k);
    }
  }

  function LabelCell(cls: seq<nat>, labels: seq<nat>, nc: nat, ms: seq<Match>, i: nat): Cell
    requires InBounds(ms, |labels|, |cls|) && i < |labels|
  {
    var j := OfLabel(ms, i);
    if |j| == 1 then OfLabelFrom(ms, i, 0); Cell(cls[j[0].det], labels[i]) else Cell(nc, labels[i])
  }

  function LabelCells(cls: seq<nat>, labels: seq<nat>, nc: nat, ms: seq<Match>, n: nat): seq<Cell>
    requires InBounds(ms, |labels|, |cls|) && n <= |labels|
  {
    if n == 0 then [] else LabelCells(cls, labels, nc, ms, n - 1) + [LabelCell(cls, labels, nc, ms, n - 1)]
  }

  function ExtraCells(cls: seq<nat>, nc: nat, ms: seq<Match>, n: nat): seq<Cell>
    requires n <= |cls|
  {
    if n == 0 then []
    else ExtraCells(cls, nc, ms, n - 1) + if Correct(ms, n - 1) then [] else [Cell(cls[n - 1], nc)]
  }

  function MissedCells(labels: seq<nat>, nc: nat, n: nat): seq<Cell>
    requires n <= |labels|
  {
    if n == 0 then [] else MissedCells(labels, nc, n - 1) + [Cell(nc, labels[n - 1])]
  }

  function CellsOf(cls: seq<nat>, labels: seq<nat>, nc: nat, ms: seq<Match>): seq<Cell>
    requires InBounds(ms, |labels|, |cls|)
  {
    LabelCells(cls, labels, nc, ms, |labels|) + if ms != [] then ExtraCells(cls, nc, ms, |cls|) else []
  }

  ghost function BatchCells(b: Batch, nc: nat, conf: real, thres: real, sorter: seq<Match> -> seq<Match>): seq<Cell>
    requires ValidBatch(b, nc) && IsSorter(sorter)
  {
    if b.dets.None? then MissedCells(b.labels, nc, |b.labels|)
    else
      var dets := Confident(b.dets.value, conf);
      MatchesFit(dets, |b.labels|, thres, sorter);
      CellsOf(ClassesOf(dets), b.labels, nc, MatchesOf(dets, |b.labels|, thres, sorter))
  }

  ghost function AllCells(bs: seq<Batch>, nc: nat, conf: real, thres: real, sorter: seq<Match> -> seq<Match>): seq<Cell>
    requires (forall i :: 0 <= i < |bs| ==> ValidBatch(bs[i], nc)) && IsSorter(sorter)
  {
    if bs == [] then []
    else AllCells(bs[..|bs| - 1], nc, conf, thres, sorter) + BatchCells(bs[|bs| - 1], nc, conf, thres, sorter)
  }

  class ConfusionMatrix {
    const nc: nat
    const conf: real
    const iouThres: real
    const matrix: array2<nat>

    ghost predicate Valid() { matrix.Length0 == matrix.Length1 == nc + 1 }

    constructor (nc: nat, conf: real, iouThres: real)
      ensures Valid() && fresh(matrix) && this.nc == nc && this.conf == conf && this.iouThres == iouThres
      ensures forall r, c :: 0 <= r <= nc && 0 <= c <= nc ==> matrix[r, c] == 0
    {
      this.nc, this.conf, this.iouThres := nc, conf, iouThres;
      matrix := new nat[nc + 1, nc + 1]((_, _) => 0);
    }

    method ProcessBatch(b: Batch, sorter: seq<Match> -> seq<Match>)
      requires Valid() && ValidBatch(b, nc) && IsSorter(sorter)
      modifies matrix
      ensures forall r, c :: 0 <= r <= nc && 0 <= c <= nc ==>
                matrix[r, c] == old(matrix[r, c]) + multiset(BatchCells(b, nc, conf, iouThres, sorter))[Cell(r, c)]
    {
      if b.dets.None? {
        Missed(b.labels);
        return;
      }
      var dets := Confident(b.dets.value, conf);
      var cls := ClassesOf(dets);
      var matches := Pairs(dets, |b.labels|, iouThres);
      MatchesFit(dets, |b.labels|, iouThres, sorter);
      if |matches| > 1 {
        matches := sorter(matches);
        matches := FirstPer(matches, DetOf(), |dets|);
        matches := sorter(matches);
        matches := FirstPer(matches, LabelOf(), |b.labels|);
      }
      assert matches == MatchesOf(dets, |b.labels|, iouThres, sorter);
      CountLabels(cls, b.labels, matches);
      if matches != [] {
        CountExtras(cls, matches);
      }
    }

    /** `self.matrix[row, col] += 1`. */
    method Add(row: nat, col: nat)
      requires Valid() && row <= nc && col <= nc
      modifies matrix
      ensures forall r, c :: 0 <= r <= nc && 0 <= c <= nc ==>
                matrix[r, c] == old(matrix[r, c]) + multiset{Cell(row, col)}[Cell(r, c)]
    {
      matrix[row, col] := matrix[row, col] + 1;
    }

    method Missed(labels: seq<nat>)
      requires Valid() && forall i :: 0 <= i < |labels| ==> labels[i] < nc
      modifies matrix
      ensures forall r, c :: 0 <= r <= nc && 0 <= c <= nc ==>
                matrix[r, c] == old(matrix[r, c]) + multiset(MissedCells(labels, nc, |labels|))[Cell(r, c)]
    {
      for i := 0 to |labels|
        invariant forall r, c :: 0 <= r <= nc && 0 <= c <= nc ==>
                    matrix[r, c] == old(matrix[r, c]) + multiset(MissedCells(labels, nc, i))[Cell(r, c)]
      {
        Add(nc, labels[i]);
      }
    }

    method CountLabels(cls: seq<nat>, labels: seq<nat>, ms: seq<Match>)
      requires Valid() && InBounds(ms, |labels|, |cls|)
      requires (forall i :: 0 <= i < |labels| ==> labels[i] < nc) && (forall d :: 0 <= d < |cls| ==> cls[d] < nc)
      modifies matrix
      ensures forall r, c :: 0 <= r <= nc && 0 <= c <= nc ==>
                matrix[r, c] == old(matrix[r, c]) + multiset(LabelCells(cls, labels, nc, ms, |labels|))[Cell(r, c)]
    {
      ghost var cells: seq<Cell> := [];
      for i := 0 to |labels|
        invariant forall r, c :: 0 <= r <= nc && 0 <= c <= nc ==>
                    matrix[r, c] == old(matrix[r, c]) + multiset(cells)[Cell(r, c)]
        invariant cells == LabelCells(cls, labels, nc, ms, i)
      {
        var row := RowOf(cls, labels, ms, i);
        Add(row, labels[i]);
        cells := cells + [Cell(row, labels[i])];
      }
    }

    method RowOf(cls: seq<nat>, labels: seq<nat>, ms: seq<Match>, i: nat) returns (row: nat)
      requires InBounds(ms, |labels|, |cls|) && i < |labels| && forall d :: 0 <= d < |cls| ==> cls[d] < nc
      ensures row <= nc && LabelCell(cls, labels, nc, ms, i) == Cell(row, labels[i])
    {
      var n, j := |ms| > 0, OfLabel(ms, i);
      row := nc;
      if n && |j| == 1 {
        OfLabelFrom(ms, i, 0);
        row := cls[j[0].det];
      }
    }

    method CountExtras(cls: seq<nat>, ms: seq<Match>)
      requires Valid() && forall d :: 0 <= d < |cls| ==> cls[d] < nc
      modifies matrix
      ensures forall r, c :: 0 <= r <= nc && 0 <= c <= nc ==>
                matrix[r, c] == old(matrix[r, c]) + multiset(ExtraCells(cls, nc, ms, |cls|))[Cell(r, c)]
    {
      for i := 0 to |cls|
        invariant forall r, c :: 0 <= r <= nc && 0 <= c <= nc ==>
                    matrix[r, c] == old(matrix[r, c]) + multiset(ExtraCells(cls, nc, ms, i))[Cell(r, c)]
      {
        if !Correct(ms, i) {
          Add(cls[i], nc);
        }
      }
    }
  }

  /** A validation run: a fresh matrix, then one call per image. */
  method Accumulated(bs: seq<Batch>, nc: nat, conf: real, thres: real, sorter: seq<Match> -> seq<Match>)
    returns (cm: ConfusionMatrix)
    requires (forall i :: 0 <= i < |bs| ==> ValidBatch(bs[i], nc)) && IsSorter(sorter)
    ensures cm.Valid() && cm.nc == nc
    ensures forall r, c :: 0 <= r <= nc && 0 <= c <= nc ==>
              cm.matrix[r, c] == multiset(AllCells(bs, nc, conf, thres, sorter))[Cell(r, c)]
  {
    cm := new ConfusionMatrix(nc, conf, thres);
    for i := 0 to |bs|
      invariant cm.Valid() && fresh(cm.matrix) && cm.nc == nc && cm.conf == conf && cm.iouThres == thres
      invariant forall r, c :: 0 <= r <= nc && 0 <= c <= nc ==>
                  cm.matrix[r, c] == multiset(AllCells(bs[..i], nc, conf, thres, sorter))[Cell(r, c)]
    {
      cm.ProcessBatch(bs[i], sorter);
      assert bs[..i + 1][..i] == bs[..i];
    }
    assert bs[..|bs|] == bs;
  }

  // ---- Conservation ----

  function ColumnCount(cells: seq<Cell>, c: nat): nat {
    if cells == [] then 0
    else ColumnCount(cells[..|cells| - 1], c) + if cells[|cells| - 1].col == c then 1 else 0
  }

  function RowCount(cells: seq<Cell>, r: nat): nat {
    if cells == [] then 0
    else RowCount(cells[..|cells| - 1], r) + if cells[|cells| - 1].row == r then 1 else 0
  }

  /** The sum of column `c` over the first `n` rows, of row `r` over the first `n` columns. */
  function ColumnSum(cells: seq<Cell>, c: nat, n: nat): nat {
    if n == 0 then 0 else ColumnSum(cells, c, n - 1) + multiset(cells)[Cell(n - 1, c)]
  }

  function RowSum(cells: seq<Cell>, r: nat, n: nat): nat {
    if n == 0 then 0 else RowSum(cells, r, n - 1) + multiset(cells)[Cell(r, n - 1)]
  }

  lemma {:induction false} SumsGrow(cells: seq<Cell>, x: Cell, k: nat, n: nat)
    ensures ColumnSum(cells + [x], k, n) == ColumnSum(cells, k, n) + if x.col == k && x.row < n then 1 else 0
    ensures RowSum(cells + [x], k, n) == RowSum(cells, k, n) + if x.row == k && x.col < n then 1 else 0
  {
    if n > 0 { SumsGrow(cells, x, k, n - 1); }
  }

  lemma {:induction false} EmptySums(k: nat, n: nat)
    ensures ColumnSum([], k, n) == 0 && RowSum([], k, n) == 0
  {
    if n > 0 { EmptySums(k, n - 1); }
  }

  /** A matrix column, or row, sums to the number of increments in it. */
  lemma {:induction false} SumsCount(cells: seq<Cell>, k: nat, nc: nat)
    requires Fits(cells, nc)
    ensures ColumnSum(cells, k, nc + 1) == ColumnCount(cells, k) && RowSum(cells, k, nc + 1) == RowCount(cells, k)
  {
    if cells == [] {
      EmptySums(k, nc + 1);
    } else {
      SumsCount(cells[..|cells| - 1], k, nc);
      SumsGrow(cells[..|cells| - 1], cells[|cells| - 1], k, nc + 1);
      assert cells == cells[..|cells| - 1] + [cells[|cells| - 1]];
    }
  }

  lemma {:induction false} CountsConcat(a: seq<Cell>, b: seq<Cell>, k: nat)
    ensures ColumnCount(a + b, k) == ColumnCount(a, k) + ColumnCount(b, k)
    ensures RowCount(a + b, k) == RowCount(a, k) + RowCount(b, k)
  {
    if b == [] {
      assert a + b == a;
    } else {
      CountsConcat(a, b[..|b| - 1], k);
      assert (a + b)[..|a + b| - 1] == a + b[..|b| - 1];
    }
  }

  // ---- Columns: labels ----

  lemma {:induction false} LabelColumn(cls: seq<nat>, labels: seq<nat>, nc: nat, ms: seq<Match>, n: nat, c: nat)
    requires InBounds(ms, |labels|, |cls|) && n <= |labels|
    ensures ColumnCount(LabelCells(cls, labels, nc, ms, n), c) == multiset(labels[..n])[c]
  {
    if n > 0 {
      LabelColumn(cls, labels, nc, ms, n - 1, c);
      assert labels[..n] == labels[..n - 1] + [labels[n - 1]];
      var cells := LabelCells(cls, labels, nc, ms, n);
      assert cells[..|cells| - 1] == LabelCells(cls, labels, nc, ms, n - 1);
    }
  }

  lemma {:induction false} MissedColumn(labels: seq<nat>, nc: nat, n: nat, c: nat)
    requires n <= |labels|
    ensures ColumnCount(MissedCells(labels, nc, n), c) == multiset(labels[..n])[c]
    ensures c < nc ==> RowCount(MissedCells(labels, nc, n), c) == 0
  {
    if n > 0 {
      MissedColumn(labels, nc, n - 1, c);
      assert labels[..n] == labels[..n - 1] + [labels[n - 1]];
      var cells := MissedCells(labels, nc, n);
      assert cells[..|cells| - 1] == MissedCells(labels, nc, n - 1);
    }
  }

  lemma {:induction false} ExtraColumn(cls: seq<nat>, nc: nat, ms: seq<Match>, n: nat, c: nat)
    requires n <= |cls| && c < nc
    ensures ColumnCount(ExtraCells(cls, nc, ms, n), c) == 0
  {
    if n > 0 {
      ExtraColumn(cls, nc, ms, n - 1, c);
      var before, cells := ExtraCells(cls, nc, ms, n - 1), ExtraCells(cls, nc, ms, n);
      assert cells == before || (cells == before + [Cell(cls[n - 1], nc)] && cells[..|cells| - 1] == before);
    }
  }

  // ---- Rows: detections ----

  /** Detections of class `r` matched with a label below `n`; unmatched ones below `n`. */
  function MatchedBelow(cls: seq<nat>, ms: seq<Match>, r: nat, n: nat): set<nat> {
    set d: nat | d < |cls| && cls[d] == r && exists k :: 0 <= k < |ms| && ms[k].det == d && ms[k].gt < n
  }

  function UnmatchedBelow(cls: seq<nat>, ms: seq<Match>, r: nat, n: nat): set<nat> {
    set d: nat | d < |cls| && d < n && cls[d] == r && !Correct(ms, d)
  }

  lemma {:induction false} OnlyMatch(ms: seq<Match>, i: nat)
    requires OneToOne(ms)
    ensures |OfLabel(ms, i)| <= 1
    ensures forall k :: 0 <= k < |ms| && ms[k].gt == i ==> OfLabel(ms, i) == [ms[k]]
  {
    if ms != [] {
      var front, last := ms[..|ms| - 1], ms[|ms| - 1];
      OnlyMatch(front, i);
      assert forall k :: 0 <= k < |front| ==> front[k] == ms[k];
      if OfLabel(front, i) != [] {
        OfLabelFrom(front, i, 0);
        var k :| 0 <= k < |front| && front[k] == OfLabel(front, i)[0];
        assert ms[k].gt != last.gt;
      }
    }
  }

  /** The detection of a label's one match has the row's class. */
  lemma RowOfCell(cls: seq<nat>, labels: seq<nat>, nc: nat, ms: seq<Match>, i: nat, r: nat)
    requires InBounds(ms, |labels|, |cls|) && OneToOne(ms) && i < |labels| && r < nc
    ensures |MatchedBelow(cls, ms, r, i + 1)| ==
            |MatchedBelow(cls, ms, r, i)| + if LabelCell(cls, labels, nc, ms, i).row == r then 1 else 0
  {
    OnlyMatch(ms, i);
    if OfLabel(ms, i) != [] { OfLabelFrom(ms, i, 0); }
    NextMatched(cls, ms, r, i, OfLabel(ms, i));
  }

  lemma {:induction false} LabelRow(cls: seq<nat>, labels: seq<nat>, nc: nat, ms: seq<Match>, n: nat, r: nat)
    requires InBounds(ms, |labels|, |cls|) && OneToOne(ms) && n <= |labels| && r < nc
    ensures RowCount(LabelCells(cls, labels, nc, ms, n), r) == |MatchedBelow(cls, ms, r, n)|
  {
    if n == 0 {
      assert MatchedBelow(cls, ms, r, 0) == {};
    } else {
      LabelRow(cls, labels, nc, ms, n - 1, r);
      RowOfCell(cls, labels, nc, ms, n - 1, r);
      NextLabelCell(cls, labels, nc, ms, n - 1, r);
    }
  }

  lemma NextLabelCell(cls: seq<nat>, labels: seq<nat>, nc: nat, ms: seq<Match>, i: nat, r: nat)
    requires InBounds(ms, |labels|, |cls|) && i < |labels|
    ensures RowCount(LabelCells(cls, labels, nc, ms, i + 1), r) ==
            RowCount(LabelCells(cls, labels, nc, ms, i), r)
            + if LabelCell(cls, labels, nc, ms, i).row == r then 1 else 0
  {
    RowCountSnoc(LabelCells(cls, labels, nc, ms, i), LabelCell(cls, labels, nc, ms, i), r);
  }

  lemma RowCountSnoc(cells: seq<Cell>, x: Cell, r: nat)
    ensures RowCount(cells + [x], r) == RowCount(cells, r) + if x.row == r then 1 else 0
  {
    assert (cells + [x])[..|cells|] == cells;
  }

  lemma NextMatched(cls: seq<nat>, ms: seq<Match>, r: nat, i: nat, j: seq<Match>)
    requires InBounds(ms, i + 1, |cls|) || forall k :: 0 <= k < |ms| ==> ms[k].det < |cls|
    requires OneToOne(ms) && |j| <= 1 && (forall k :: 0 <= k < |j| ==> j[k] in ms && j[k].gt == i)
    requires forall k :: 0 <= k < |ms| && ms[k].gt == i ==> j == [ms[k]]
    ensures |MatchedBelow(cls, ms, r, i + 1)| ==
            |MatchedBelow(cls, ms, r, i)| + if j != [] && j[0].det < |cls| && cls[j[0].det] == r then 1 else 0
  {
    var before, after := MatchedBelow(cls, ms, r, i), MatchedBelow(cls, ms, r, i + 1);
    if j != [] && j[0].det < |cls| && cls[j[0].det] == r {
      var k :| 0 <= k < |ms| && ms[k] == j[0];
      var d := j[0].det;
      assert forall k' :: 0 <= k' < |ms| && k' != k ==> ms[k'].det != d;
      assert after == before + {d};
    } else {
      assert after == before;
    }
  }

  lemma {:induction false} ExtraRow(cls: seq<nat>, nc: nat, ms: seq<Match>, n: nat, r: nat)
    requires n <= |cls|
    ensures RowCount(ExtraCells(cls, nc, ms, n), r) == |UnmatchedBelow(cls, ms, r, n)|
  {
    if n == 0 {
      assert UnmatchedBelow(cls, ms, r, 0) == {};
    } else {
      ExtraRow(cls, nc, ms, n - 1, r);
      var before, cells := ExtraCells(cls, nc, ms, n - 1), ExtraCells(cls, nc, ms, n);
      var below := UnmatchedBelow(cls, ms, r, n - 1);
      if Correct(ms, n - 1) {
        assert cells == before + [] == before;
        assert UnmatchedBelow(cls, ms, r, n) == below;
      } else {
        assert cells[..|cells| - 1] == before;
        assert UnmatchedBelow(cls, ms, r, n) == if cls[n - 1] == r then below + {n - 1} else below;
      }
    }
  }

  /** In an image with a match, row `r` gets one increment per confident detection of class `r`; in an
      image without, none. */
  lemma RowOfImage(cls: seq<nat>, labels: seq<nat>, nc: nat, ms: seq<Match>, r: nat)
    requires InBounds(ms, |labels|, |cls|) && OneToOne(ms) && r < nc
    ensures RowCount(CellsOf(cls, labels, nc, ms), r) == if ms == [] then 0 else |IndicesOf(cls, r)|
  {
    LabelRow(cls, labels, nc, ms, |labels|, r);
    var matched := MatchedBelow(cls, ms, r, |labels|);
    if ms == [] {
      assert matched == {};
      CountsConcat(LabelCells(cls, labels, nc, ms, |labels|), [], r);
    } else {
      var unmatched := UnmatchedBelow(cls, ms, r, |cls|);
      CountsConcat(LabelCells(cls, labels, nc, ms, |labels|), ExtraCells(cls, nc, ms, |cls|), r);
      ExtraRow(cls, nc, ms, |cls|, r);
      forall d: nat
        ensures d in IndicesOf(cls, r) <==> d in matched + unmatched
      {
        IndicesFrom(cls, r, d);
      }
      assert IndicesOf(cls, r) == matched + unmatched;
      assert matched !! unmatched;
    }
  }

  lemma ColumnOfImage(cls: seq<nat>, labels: seq<nat>, nc: nat, ms: seq<Match>, c: nat)
    requires InBounds(ms, |labels|, |cls|) && c < nc
    ensures ColumnCount(CellsOf(cls, labels, nc, ms), c) == multiset(labels)[c]
  {
    LabelColumn(cls, labels, nc, ms, |labels|, c);
    assert labels[..|labels|] == labels;
    ExtraColumn(cls, nc, ms, |cls|, c);
    CountsConcat(LabelCells(cls, labels, nc, ms, |labels|), if ms != [] then ExtraCells(cls, nc, ms, |cls|) else [], c);
  }

  // ---- Single entries ----

  /** Label `i` counts in row `r`: it is matched with a detection of class `r`, or with none and `r` is background. */
  predicate LandsIn(cls: seq<nat>, nc: nat, ms: seq<Match>, i: nat, r: nat)
    requires forall k :: 0 <= k < |ms| ==> ms[k].det < |cls|
  {
    if r < nc then exists k :: 0 <= k < |ms| && ms[k].gt == i && cls[ms[k].det] == r
    else forall k :: 0 <= k < |ms| ==> ms[k].gt != i
  }

  function LabelsIn(cls: seq<nat>, labels: seq<nat>, nc: nat, ms: seq<Match>, r: nat, c: nat, n: nat): set<nat>
    requires (forall k :: 0 <= k < |ms| ==> ms[k].det < |cls|) && n <= |labels|
  {
    set i: nat | i < n && labels[i] == c && LandsIn(cls, nc, ms, i, r)
  }

  lemma LabelCellIs(cls: seq<nat>, labels: seq<nat>, nc: nat, ms: seq<Match>, i: nat, r: nat, c: nat)
    requires InBounds(ms, |labels|, |cls|) && OneToOne(ms) && i < |labels| && r <= nc
    requires forall d :: 0 <= d < |cls| ==> cls[d] < nc
    ensures LabelCell(cls, labels, nc, ms, i) == Cell(r, c) <==> labels[i] == c && LandsIn(cls, nc, ms, i, r)
  {
    OnlyMatch(ms, i);
    if OfLabel(ms, i) != [] {
      OfLabelFrom(ms, i, 0);
      var k :| 0 <= k < |ms| && ms[k] == OfLabel(ms, i)[0];
      assert ms[k].gt == i;
    }
  }

  lemma CountNext<T>(s: seq<T>, x: T, y: T)
    ensures multiset(s + [x])[y] == multiset(s)[y] + if x == y then 1 else 0
  {
  }

  lemma {:induction false} LabelEntries(cls: seq<nat>, labels: seq<nat>, nc: nat, ms: seq<Match>, r: nat, c: nat,
                                        n: nat)
    requires InBounds(ms, |labels|, |cls|) && OneToOne(ms) && n <= |labels| && r <= nc
    requires forall d :: 0 <= d < |cls| ==> cls[d] < nc
    ensures multiset(LabelCells(cls, labels, nc, ms, n))[Cell(r, c)] == |LabelsIn(cls, labels, nc, ms, r, c, n)|
  {
    if n == 0 {
      assert LabelsIn(cls, labels, nc, ms, r, c, 0) == {};
    } else {
      var i := n - 1;
      LabelEntries(cls, labels, nc, ms, r, c, i);
      LabelCellIs(cls, labels, nc, ms, i, r, c);
      CountNext(LabelCells(cls, labels, nc, ms, i), LabelCell(cls, labels, nc, ms, i), Cell(r, c));
      LabelsInNext(cls, labels, nc, ms, r, c, i);
    }
  }

  lemma LabelsInNext(cls: seq<nat>, labels: seq<nat>, nc: nat, ms: seq<Match>, r: nat, c: nat, i: nat)
    requires (forall k :: 0 <= k < |ms| ==> ms[k].det < |cls|) && i < |labels|
    ensures |LabelsIn(cls, labels, nc, ms, r, c, i + 1)| ==
            |LabelsIn(cls, labels, nc, ms, r, c, i)| + if labels[i] == c && LandsIn(cls, nc, ms, i, r) then 1 else 0
  {
    var before := LabelsIn(cls, labels, nc, ms, r, c, i);
    assert LabelsIn(cls, labels, nc, ms, r, c, i + 1) ==
           if labels[i] == c && LandsIn(cls, nc, ms, i, r) then before + {i} else before;
  }

  lemma {:induction false} ExtraEntries(cls: seq<nat>, nc: nat, ms: seq<Match>, r: nat, c: nat, n: nat)
    requires n <= |cls|
    ensures multiset(ExtraCells(cls, nc, ms, n))[Cell(r, c)] == if c == nc then |UnmatchedBelow(cls, ms, r, n)| else 0
  {
    if n == 0 {
      NoneUnmatched(cls, ms, r);
    } else {
      ExtraEntries(cls, nc, ms, r, c, n - 1);
      ExtraStep(cls, nc, ms, r, c, n - 1);
    }
  }

  lemma NoneUnmatched(cls: seq<nat>, ms: seq<Match>, r: nat)
    ensures |UnmatchedBelow(cls, ms, r, 0)| == 0
  {
    assert UnmatchedBelow(cls, ms, r, 0) == {};
  }

  lemma ExtraStep(cls: seq<nat>, nc: nat, ms: seq<Match>, r: nat, c: nat, d: nat)
    requires d < |cls|
    requires multiset(ExtraCells(cls, nc, ms, d))[Cell(r, c)] == if c == nc then |UnmatchedBelow(cls, ms, r, d)| else 0
    ensures multiset(ExtraCells(cls, nc, ms, d + 1))[Cell(r, c)] ==
            if c == nc then |UnmatchedBelow(cls, ms, r, d + 1)| else 0
  {
    UnmatchedNext(cls, ms, r, d);
    ExtraNext(cls, nc, ms, d, Cell(r, c));
  }

  lemma UnmatchedNext(cls: seq<nat>, ms: seq<Match>, r: nat, d: nat)
    requires d < |cls|
    ensures |UnmatchedBelow(cls, ms, r, d + 1)| ==
            |UnmatchedBelow(cls, ms, r, d)| + if cls[d] == r && !Correct(ms, d) then 1 else 0
  {
    var below := UnmatchedBelow(cls, ms, r, d);
    assert UnmatchedBelow(cls, ms, r, d + 1) == if cls[d] == r && !Correct(ms, d) then below + {d} else below;
  }

  lemma ExtraNext(cls: seq<nat>, nc: nat, ms: seq<Match>, d: nat, x: Cell)
    requires d < |cls|
    ensures multiset(ExtraCells(cls, nc, ms, d + 1))[x] ==
            multiset(ExtraCells(cls, nc, ms, d))[x] + if !Correct(ms, d) && x == Cell(cls[d], nc) then 1 else 0
  {
    var before := ExtraCells(cls, nc, ms, d);
    CountNext(before, Cell(cls[d], nc), x);
    assert before + [] == before;
  }

  /** What one image adds to each entry: in a true class's column, its labels matched with detections of the row's
      class, or with none in the background row; in the background column, the unmatched detections of the row's
      class, provided something matched. */
  lemma EntryOfImage(cls: seq<nat>, labels: seq<nat>, nc: nat, ms: seq<Match>, r: nat, c: nat)
    requires InBounds(ms, |labels|, |cls|) && OneToOne(ms) && r <= nc && c <= nc
    requires (forall d :: 0 <= d < |cls| ==> cls[d] < nc) && forall i :: 0 <= i < |labels| ==> labels[i] < nc
    ensures multiset(CellsOf(cls, labels, nc, ms))[Cell(r, c)] ==
            if c < nc then |set i: nat | i < |labels| && labels[i] == c && LandsIn(cls, nc, ms, i, r)|
            else if ms == [] then 0
            else |set d: nat | d < |cls| && cls[d] == r && (forall k :: 0 <= k < |ms| ==> ms[k].det != d)|
  {
    var a, b := LabelCells(cls, labels, nc, ms, |labels|), ExtraCells(cls, nc, ms, |cls|);
    LabelEntries(cls, labels, nc, ms, r, c, |labels|);
    ExtraEntries(cls, nc, ms, r, c, |cls|);
    assert multiset(a + b)[Cell(r, c)] == multiset(a)[Cell(r, c)] + multiset(b)[Cell(r, c)];
    assert a + [] == a;
    if c == nc {
      assert LabelsIn(cls, labels, nc, ms, r, c, |labels|) == {};
      assert UnmatchedBelow(cls, ms, r, |cls|) ==
             (set d: nat | d < |cls| && cls[d] == r && (forall k :: 0 <= k < |ms| ==> ms[k].det != d));
    } else {
      assert LabelsIn(cls, labels, nc, ms, r, c, |labels|) ==
             (set i: nat | i < |labels| && labels[i] == c && LandsIn(cls, nc, ms, i, r));
    }
  }

  // ---- Over all images ----

  function LabelsSeen(bs: seq<Batch>, c: nat): nat {
    if bs == [] then 0 else LabelsSeen(bs[..|bs| - 1], c) + multiset(bs[|bs| - 1].labels)[c]
  }

  /** The detection overlaps some label by more than the threshold. */
  predicate Overlaps(d: Detection, thres: real) {
    exists l :: 0 <= l < |d.ious| && d.ious[l] > thres
  }

  /** Confident detections of class `r` in an image, if any detection of it matched a label. */
  ghost function DetectionsIn(b: Batch, nc: nat, conf: real, thres: real, r: nat): nat
    requires ValidBatch(b, nc)
  {
    if b.dets.None? then 0
    else
      var all := b.dets.value;
      if exists d :: 0 <= d < |all| && all[d].conf > conf && Overlaps(all[d], thres)
      then |ConfidentOf(all, conf, r)| else 0
  }

  ghost function DetectionsSeen(bs: seq<Batch>, nc: nat, conf: real, thres: real, r: nat): nat
    requires forall i :: 0 <= i < |bs| ==> ValidBatch(bs[i], nc)
  {
    if bs == [] then 0
    else DetectionsSeen(bs[..|bs| - 1], nc, conf, thres, r) + DetectionsIn(bs[|bs| - 1], nc, conf, thres, r)
  }

  /** There is a match as soon as there is a pair above the threshold. */
  lemma SomeMatch(dets: seq<Detection>, labels: nat, thres: real, sorter: seq<Match> -> seq<Match>)
    requires IsSorter(sorter) && forall d :: 0 <= d < |dets| ==> |dets[d].ious| == labels
    ensures MatchesOf(dets, labels, thres, sorter) != [] <==>
            exists d, l :: 0 <= d < |dets| && 0 <= l < labels && dets[d].ious[l] > thres
  {
    var cand, ms := Pairs(dets, labels, thres), MatchesOf(dets, labels, thres, sorter);
    MatchesAreMatching(cand, sorter, labels, |dets|);
    if ms != [] {
      assert ms[0] in ms;
      PairsHave(dets, labels, thres, ms[0]);
    }
    if d, l :| 0 <= d < |dets| && 0 <= l < labels && dets[d].ious[l] > thres {
      var c := Match(l, d, dets[d].ious[l]);
      PairsHave(dets, labels, thres, c);
      forall i | 0 <= i < |cand|
        ensures cand[i].gt < labels && cand[i].det < |dets|
      {
        PairsHave(dets, labels, thres, cand[i]);
      }
      if |cand| > 1 {
        var best := BestPer(cand, sorter, |dets|);
        var m := BestPerDetection(cand, sorter, labels, |dets|, c);
        SortedHas(best, sorter, m);
        var i :| 0 <= i < |sorter(best)| && sorter(best)[i] == m;
        FirstWithIsFirst(sorter(best), LabelOf(), m.gt, i);
        var w := FirstWith(sorter(best), LabelOf(), m.gt).value;
        FirstPerHas(sorter(best), LabelOf(), labels, w);
        PairsHave(dets, labels, thres, m);
      }
    }
  }

  lemma SomeConfident(all: seq<Detection>, conf: real, thres: real)
    ensures AnyOverlaps(Confident(all, conf), thres) <==>
            exists d :: 0 <= d < |all| && all[d].conf > conf && Overlaps(all[d], thres)
  {
    var dets := Confident(all, conf);
    var pos := ConfidentSelects(all, conf);
    if d :| 0 <= d < |dets| && Overlaps(dets[d], thres) {
      assert Overlaps(all[pos[d]], thres);
    }
    if d :| 0 <= d < |all| && all[d].conf > conf && Overlaps(all[d], thres) {
      assert d in pos;
      var k :| 0 <= k < |pos| && pos[k] == d;
      assert Overlaps(dets[k], thres);
    }
  }

  predicate AnyOverlaps(dets: seq<Detection>, thres: real) {
    exists d :: 0 <= d < |dets| && Overlaps(dets[d], thres)
  }

  lemma SomePair(dets: seq<Detection>, labels: nat, thres: real)
    requires forall d :: 0 <= d < |dets| ==> |dets[d].ious| == labels
    ensures (exists d, l :: 0 <= d < |dets| && 0 <= l < labels && dets[d].ious[l] > thres) <==>
            AnyOverlaps(dets, thres)
  {
    if d, l :| 0 <= d < |dets| && 0 <= l < labels && dets[d].ious[l] > thres {
      assert Overlaps(dets[d], thres);
    }
    if d :| 0 <= d < |dets| && Overlaps(dets[d], thres) {
      var l :| 0 <= l < |dets[d].ious| && dets[d].ious[l] > thres;
      assert dets[d].ious[l] > thres;
    }
  }

  lemma DetectionsCounted(b: Batch, nc: nat, conf: real, thres: real, r: nat)
    requires ValidBatch(b, nc) && b.dets.Some?
    ensures var dets := Confident(b.dets.value, conf);
            DetectionsIn(b, nc, conf, thres, r) ==
            if AnyOverlaps(dets, thres) then |IndicesOf(ClassesOf(dets), r)| else 0
  {
    ConfidentCount(b.dets.value, conf, r);
    SomeConfident(b.dets.value, conf, thres);
  }

  lemma MatchIffOverlap(dets: seq<Detection>, labels: nat, thres: real, sorter: seq<Match> -> seq<Match>)
    requires IsSorter(sorter) && forall d :: 0 <= d < |dets| ==> |dets[d].ious| == labels
    ensures MatchesOf(dets, labels, thres, sorter) != [] <==> AnyOverlaps(dets, thres)
  {
    SomeMatch(dets, labels, thres, sorter);
    SomePair(dets, labels, thres);
  }

  lemma BatchSums(b: Batch, nc: nat, conf: real, thres: real, sorter: seq<Match> -> seq<Match>, k: nat)
    requires ValidBatch(b, nc) && IsSorter(sorter) && k < nc
    ensures ColumnCount(BatchCells(b, nc, conf, thres, sorter), k) == multiset(b.labels)[k]
    ensures RowCount(BatchCells(b, nc, conf, thres, sorter), k) == DetectionsIn(b, nc, conf, thres, k)
  {
    if b.dets.None? {
      MissedColumn(b.labels, nc, |b.labels|, k);
      assert b.labels[..|b.labels|] == b.labels;
    } else {
      var dets := Confident(b.dets.value, conf);
      var ms := MatchesOf(dets, |b.labels|, thres, sorter);
      MatchesFit(dets, |b.labels|, thres, sorter);
      ColumnOfImage(ClassesOf(dets), b.labels, nc, ms, k);
      RowOfImage(ClassesOf(dets), b.labels, nc, ms, k);
      MatchIffOverlap(dets, |b.labels|, thres, sorter);
      DetectionsCounted(b, nc, conf, thres, k);
    }
  }

  lemma {:induction false} AllSums(bs: seq<Batch>, nc: nat, conf: real, thres: real, sorter: seq<Match> -> seq<Match>,
                                   k: nat)
    requires (forall i :: 0 <= i < |bs| ==> ValidBatch(bs[i], nc)) && IsSorter(sorter) && k < nc
    ensures ColumnCount(AllCells(bs, nc, conf, thres, sorter), k) == LabelsSeen(bs, k)
    ensures RowCount(AllCells(bs, nc, conf, thres, sorter), k) == DetectionsSeen(bs, nc, conf, thres, k)
  {
    if bs != [] {
      var front, last := bs[..|bs| - 1], bs[|bs| - 1];
      AllSums(front, nc, conf, thres, sorter, k);
      BatchSums(last, nc, conf, thres, sorter, k);
      CountsConcat(AllCells(front, nc, conf, thres, sorter), BatchCells(last, nc, conf, thres, sorter), k);
    }
  }

  predicate Fits(cells: seq<Cell>, nc: nat) {
    forall i :: 0 <= i < |cells| ==> cells[i].row <= nc && cells[i].col <= nc
  }

  lemma {:induction false} LabelCellsFit(cls: seq<nat>, labels: seq<nat>, nc: nat, ms: seq<Match>, n: nat)
    requires InBounds(ms, |labels|, |cls|) && n <= |labels|
    requires (forall i :: 0 <= i < |labels| ==> labels[i] < nc) && (forall d :: 0 <= d < |cls| ==> cls[d] < nc)
    ensures Fits(LabelCells(cls, labels, nc, ms, n), nc)
  {
    if n > 0 {
      LabelCellsFit(cls, labels, nc, ms, n - 1);
      if OfLabel(ms, n - 1) != [] { OfLabelFrom(ms, n - 1, 0); }
    }
  }

  lemma {:induction false} ExtraCellsFit(cls: seq<nat>, nc: nat, ms: seq<Match>, n: nat)
    requires n <= |cls| && forall d :: 0 <= d < |cls| ==> cls[d] < nc
    ensures Fits(ExtraCells(cls, nc, ms, n), nc)
  {
    if n > 0 { ExtraCellsFit(cls, nc, ms, n - 1); }
  }

  lemma {:induction false} MissedCellsFit(labels: seq<nat>, nc: nat, n: nat)
    requires n <= |labels| && forall i :: 0 <= i < |labels| ==> labels[i] < nc
    ensures Fits(MissedCells(labels, nc, n), nc)
  {
    if n > 0 { MissedCellsFit(labels, nc, n - 1); }
  }

  lemma {:induction false} AllCellsFit(bs: seq<Batch>, nc: nat, conf: real, thres: real,
                                       sorter: seq<Match> -> seq<Match>)
    requires (forall i :: 0 <= i < |bs| ==> ValidBatch(bs[i], nc)) && IsSorter(sorter)
    ensures Fits(AllCells(bs, nc, conf, thres, sorter), nc)
  {
    if bs != [] {
      AllCellsFit(bs[..|bs| - 1], nc, conf, thres, sorter);
      BatchCellsFit(bs[|bs| - 1], nc, conf, thres, sorter);
    }
  }

  lemma BatchCellsFit(b: Batch, nc: nat, conf: real, thres: real, sorter: seq<Match> -> seq<Match>)
    requires ValidBatch(b, nc) && IsSorter(sorter)
    ensures Fits(BatchCells(b, nc, conf, thres, sorter), nc)
  {
    if b.dets.None? {
      MissedCellsFit(b.labels, nc, |b.labels|);
    } else {
      var dets := Confident(b.dets.value, conf);
      var cls, ms := ClassesOf(dets), MatchesOf(dets, |b.labels|, thres, sorter);
      MatchesFit(dets, |b.labels|, thres, sorter);
      LabelCellsFit(cls, b.labels, nc, ms, |b.labels|);
      ExtraCellsFit(cls, nc, ms, |cls|);
    }
  }

  /** After any images, column `k` sums to the labels of class `k` seen, and row `k` to the confident
      detections of class `k` in images where some detection matched. */
  lemma Conservation(bs: seq<Batch>, nc: nat, conf: real, thres: real, sorter: seq<Match> -> seq<Match>, k: nat)
    requires (forall i :: 0 <= i < |bs| ==> ValidBatch(bs[i], nc)) && IsSorter(sorter) && k < nc
    ensures var cells := AllCells(bs, nc, conf, thres, sorter);
            && ColumnSum(cells, k, nc + 1) == LabelsSeen(bs, k)
            && RowSum(cells, k, nc + 1) == DetectionsSeen(bs, nc, conf, thres, k)
  {
    AllCellsFit(bs, nc, conf, thres, sorter);
    SumsCount(AllCells(bs, nc, conf, thres, sorter), k, nc);
    AllSums(bs, nc, conf, thres, sorter, k);
  }
}
