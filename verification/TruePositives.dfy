/** True positives of one image at several IoU thresholds (yolov5/val.py, `process_batch`). */
module TruePositives {
  import opened IndexSets
  import opened Matching

  /** IoU of every label (row) with every detection (column), and the classes of both. */
  datatype Scene = Scene(iou: seq<seq<real>>, gtCls: seq<nat>, detCls: seq<nat>) {
    predicate Valid() {
      |iou| == |gtCls| && forall l :: 0 <= l < |iou| ==> |iou[l]| == |detCls|
    }
  }

  predicate Agree(sc: Scene, thres: real, l: nat, d: nat)
    requires sc.Valid() && l < |sc.gtCls| && d < |sc.detCls|
  {
    sc.iou[l][d] >= thres && sc.gtCls[l] == sc.detCls[d]
  }

  // torch.where lists the pairs label by label

  function InRow(sc: Scene, thres: real, l: nat, n: nat): seq<Match>
    requires sc.Valid() && l < |sc.gtCls| && n <= |sc.detCls|
  {
    if n == 0 then []
    else InRow(sc, thres, l, n - 1) + if Agree(sc, thres, l, n - 1) then [Match(l, n - 1, sc.iou[l][n - 1])] else []
  }

  function InRows(sc: Scene, thres: real, n: nat): seq<Match>
    requires sc.Valid() && n <= |sc.gtCls|
  {
    if n == 0 then [] else InRows(sc, thres, n - 1) + InRow(sc, thres, n - 1, |sc.detCls|)
  }

  function Cands(sc: Scene, thres: real): seq<Match>
    requires sc.Valid()
  {
    InRows(sc, thres, |sc.gtCls|)
  }

  lemma {:induction false} InRowHas(sc: Scene, thres: real, l: nat, n: nat, m: Match)
    requires sc.Valid() && l < |sc.gtCls| && n <= |sc.detCls|
    ensures m in InRow(sc, thres, l, n) <==>
              m.gt == l && m.det < n && Agree(sc, thres, l, m.det) && m.iou == sc.iou[l][m.det]
  {
    if n > 0 {
      InRowHas(sc, thres, l, n - 1, m);
    }
  }

  lemma {:induction false} InRowsHas(sc: Scene, thres: real, n: nat, m: Match)
    requires sc.Valid() && n <= |sc.gtCls|
    ensures m in InRows(sc, thres, n) <==>
              m.gt < n && m.det < |sc.detCls| && Agree(sc, thres, m.gt, m.det) && m.iou == sc.iou[m.gt][m.det]
  {
    if n > 0 {
      InRowsHas(sc, thres, n - 1, m);
      InRowHas(sc, thres, n - 1, |sc.detCls|, m);
    }
  }

  lemma CandsInBounds(sc: Scene, thres: real)
    requires sc.Valid()
    ensures InBounds(Cands(sc, thres), |sc.gtCls|, |sc.detCls|)
  {
    var cand := Cands(sc, thres);
    forall i | 0 <= i < |cand|
      ensures cand[i].gt < |sc.gtCls| && cand[i].det < |sc.detCls|
    {
      InRowsHas(sc, thres, |sc.gtCls|, cand[i]);
    }
  }

  function MatchesAt(sc: Scene, thres: real, sorter: seq<Match> -> seq<Match>): seq<Match>
    requires sc.Valid()
  {
    Matches(Cands(sc, thres), sorter, |sc.gtCls|, |sc.detCls|)
  }

  /** Is detection `d` marked correct? */
  predicate Correct(ms: seq<Match>, d: nat) {
    exists k :: 0 <= k < |ms| && ms[k].det == d
  }

  /** The matrix of correct predictions, one column per threshold. */
  method ProcessBatch(sc: Scene, iouv: seq<real>, sorter: seq<Match> -> seq<Match>) returns (correct: array2<bool>)
    requires sc.Valid() && IsSorter(sorter)
    ensures correct.Length0 == |sc.detCls| && correct.Length1 == |iouv|
    ensures forall d, i :: 0 <= d < |sc.detCls| && 0 <= i < |iouv| ==>
              correct[d, i] == Correct(MatchesAt(sc, iouv[i], sorter), d)
  {
    correct := new bool[|sc.detCls|, |iouv|]((_, _) => false);
    for i := 0 to |iouv|
      invariant forall d, k :: 0 <= d < |sc.detCls| && 0 <= k < i ==>
                  correct[d, k] == Correct(MatchesAt(sc, iouv[k], sorter), d)
      invariant forall d, k :: 0 <= d < |sc.detCls| && i <= k < |iouv| ==> !correct[d, k]
    {
      var matches := Cands(sc, iouv[i]);
      CandsInBounds(sc, iouv[i]);
      MatchesAreMatching(matches, sorter, |sc.gtCls|, |sc.detCls|);
      if |matches| > 1 {
        matches := sorter(matches);
        matches := FirstPer(matches, DetOf(), |sc.detCls|);
        matches := FirstPer(matches, LabelOf(), |sc.gtCls|);
      }
      assert matches == MatchesAt(sc, iouv[i], sorter);
      MatchesInBounds(sc, iouv[i], sorter);
      Mark(correct, i, matches);
    }
  }

  /** Marks column `i` of the matched detections. */
  method Mark(correct: array2<bool>, i: nat, matches: seq<Match>)
    requires i < correct.Length1 && forall j :: 0 <= j < |matches| ==> matches[j].det < correct.Length0
    requires forall d :: 0 <= d < correct.Length0 ==> !correct[d, i]
    modifies correct
    ensures forall d :: 0 <= d < correct.Length0 ==> correct[d, i] == Correct(matches, d)
    ensures forall d, k :: 0 <= d < correct.Length0 && 0 <= k < correct.Length1 && k != i ==>
        correct[d, k] == old(correct[d, k])
  {
    for j := 0 to |matches|
      invariant forall d :: 0 <= d < correct.Length0 ==> correct[d, i] == Correct(matches[..j], d)
      invariant forall d, k :: 0 <= d < correct.Length0 && 0 <= k < correct.Length1 && k != i ==>
          correct[d, k] == old(correct[d, k])
    {
      correct[matches[j].det, i] := true;
      CorrectSnoc(matches, j);
    }
    assert matches[..|matches|] == matches;
  }

  lemma CorrectSnoc(ms: seq<Match>, j: nat)
    requires j < |ms|
    ensures forall d :: Correct(ms[..j + 1], d) <==> Correct(ms[..j], d) || ms[j].det == d
  {
    forall d
      ensures Correct(ms[..j + 1], d) <==> Correct(ms[..j], d) || ms[j].det == d
    {
      if Correct(ms[..j], d) {
        var k :| 0 <= k < j && ms[..j][k].det == d;
        assert ms[..j + 1][k].det == d;
      }
      if ms[j].det == d {
        assert ms[..j + 1][j].det == d;
      }
      if Correct(ms[..j + 1], d) && ms[j].det != d {
        var k :| 0 <= k < j + 1 && ms[..j + 1][k].det == d;
        assert ms[..j][k].det == d;
      }
    }
  }

  lemma MatchesInBounds(sc: Scene, thres: real, sorter: seq<Match> -> seq<Match>)
    requires sc.Valid() && IsSorter(sorter)
    ensures InBounds(MatchesAt(sc, thres, sorter), |sc.gtCls|, |sc.detCls|)
  {
    var ms := MatchesAt(sc, thres, sorter);
    MatchesAreMatching(Cands(sc, thres), sorter, |sc.gtCls|, |sc.detCls|);
    forall i | 0 <= i < |ms|
      ensures ms[i].gt < |sc.gtCls| && ms[i].det < |sc.detCls|
    {
      assert ms[i] in ms;
      InRowsHas(sc, thres, |sc.gtCls|, ms[i]);
    }
  }

  /** What a match is: IoU at least the threshold, same class, no detection or label twice. */
  lemma MatchesAreSound(sc: Scene, thres: real, sorter: seq<Match> -> seq<Match>, i: nat)
    requires sc.Valid() && IsSorter(sorter) && i < |MatchesAt(sc, thres, sorter)|
    ensures var ms := MatchesAt(sc, thres, sorter);
            && ms[i].gt < |sc.gtCls| && ms[i].det < |sc.detCls|
            && ms[i].iou == sc.iou[ms[i].gt][ms[i].det] >= thres && sc.gtCls[ms[i].gt] == sc.detCls[ms[i].det]
            && forall j :: 0 <= j < |ms| && j != i ==> ms[j].det != ms[i].det && ms[j].gt != ms[i].gt
  {
    var ms := MatchesAt(sc, thres, sorter);
    MatchesAreMatching(Cands(sc, thres), sorter, |sc.gtCls|, |sc.detCls|);
    assert ms[i] in ms;
    InRowsHas(sc, thres, |sc.gtCls|, ms[i]);
    forall j | 0 <= j < |ms| && j != i
      ensures ms[j].det != ms[i].det && ms[j].gt != ms[i].gt
    {
      if j < i { assert ms[j].det != ms[i].det; } else { assert ms[i].det != ms[j].det; }
    }
  }

  // ---- Counting ----

  /** Labels, or detections, of the matches whose label has class `c`. */
  function GtsOf(ms: seq<Match>, cls: seq<nat>, c: nat): set<nat> {
    if ms == [] then {}
    else
      var m := ms[|ms| - 1];
      GtsOf(ms[..|ms| - 1], cls, c) + if m.gt < |cls| && cls[m.gt] == c then {m.gt} else {}
  }

  function DetsOf(ms: seq<Match>, cls: seq<nat>, c: nat): set<nat> {
    if ms == [] then {}
    else
      var m := ms[|ms| - 1];
      DetsOf(ms[..|ms| - 1], cls, c) + if m.gt < |cls| && cls[m.gt] == c then {m.det} else {}
  }

  lemma {:induction false} GtsFrom(ms: seq<Match>, cls: seq<nat>, c: nat, x: nat)
    ensures x in GtsOf(ms, cls, c) <==> exists k :: 0 <= k < |ms| && ms[k].gt == x && x < |cls| && cls[x] == c
  {
    if ms != [] {
      var front := ms[..|ms| - 1];
      GtsFrom(front, cls, c, x);
      assert forall k :: 0 <= k < |front| ==> front[k] == ms[k];
    }
  }

  lemma {:induction false} DetsFrom(ms: seq<Match>, cls: seq<nat>, c: nat, x: nat)
    ensures x in DetsOf(ms, cls, c) <==>
              exists k :: 0 <= k < |ms| && ms[k].det == x && ms[k].gt < |cls| && cls[ms[k].gt] == c
  {
    if ms != [] {
      var front := ms[..|ms| - 1];
      DetsFrom(front, cls, c, x);
      assert forall k :: 0 <= k < |front| ==> front[k] == ms[k];
    }
  }

  predicate OneToOne(ms: seq<Match>) {
    forall i, j :: 0 <= i < j < |ms| ==> ms[i].det != ms[j].det && ms[i].gt != ms[j].gt
  }

  lemma {:induction false} AsManyDetsAsGts(ms: seq<Match>, cls: seq<nat>, c: nat)
    requires OneToOne(ms)
    ensures |DetsOf(ms, cls, c)| == |GtsOf(ms, cls, c)|
  {
    if ms != [] {
      var front, m := ms[..|ms| - 1], ms[|ms| - 1];
      AsManyDetsAsGts(front, cls, c);
      DetsFrom(front, cls, c, m.det);
      GtsFrom(front, cls, c, m.gt);
    }
  }

  /** The indices of class `c`. */
  function IndicesOf(cls: seq<nat>, c: nat): set<nat> {
    if cls == [] then {}
    else IndicesOf(cls[..|cls| - 1], c) + if cls[|cls| - 1] == c then {|cls| - 1} else {}
  }

  lemma {:induction false} IndicesFrom(cls: seq<nat>, c: nat, x: nat)
    ensures x in IndicesOf(cls, c) <==> x < |cls| && cls[x] == c
  {
    if cls != [] {
      IndicesFrom(cls[..|cls| - 1], c, x);
    }
  }

  /** Detections of class `c` marked correct. */
  function Positives(sc: Scene, thres: real, sorter: seq<Match> -> seq<Match>, c: nat): set<nat>
    requires sc.Valid()
  {
    set d: nat | d < |sc.detCls| && sc.detCls[d] == c && Correct(MatchesAt(sc, thres, sorter), d)
  }

  lemma PositiveIsMatched(sc: Scene, thres: real, sorter: seq<Match> -> seq<Match>, c: nat, d: nat)
    requires sc.Valid() && IsSorter(sorter)
    ensures d in Positives(sc, thres, sorter, c) <==> d in DetsOf(MatchesAt(sc, thres, sorter), sc.gtCls, c)
  {
    var ms := MatchesAt(sc, thres, sorter);
    DetsFrom(ms, sc.gtCls, c, d);
    forall k | 0 <= k < |ms|
      ensures ms[k].gt < |sc.gtCls| && ms[k].det < |sc.detCls| && sc.gtCls[ms[k].gt] == sc.detCls[ms[k].det]
    {
      MatchesAreSound(sc, thres, sorter, k);
    }
  }

  /** A class never has more true positives than labels. */
  lemma PositivesAtMostLabels(sc: Scene, thres: real, sorter: seq<Match> -> seq<Match>, c: nat)
    requires sc.Valid() && IsSorter(sorter)
    ensures |Positives(sc, thres, sorter, c)| <= |IndicesOf(sc.gtCls, c)|
  {
    var ms := MatchesAt(sc, thres, sorter);
    MatchesAreMatching(Cands(sc, thres), sorter, |sc.gtCls|, |sc.detCls|);
    forall d: nat
      ensures d in Positives(sc, thres, sorter, c) <==> d in DetsOf(ms, sc.gtCls, c)
    {
      PositiveIsMatched(sc, thres, sorter, c, d);
    }
    assert Positives(sc, thres, sorter, c) == DetsOf(ms, sc.gtCls, c);
    AsManyDetsAsGts(ms, sc.gtCls, c);
    forall x | x in GtsOf(ms, sc.gtCls, c)
      ensures x in IndicesOf(sc.gtCls, c)
    {
      GtsFrom(ms, sc.gtCls, c, x);
      IndicesFrom(sc.gtCls, c, x);
    }
    SubsetSize(GtsOf(ms, sc.gtCls, c), IndicesOf(sc.gtCls, c));
  }

  // ---- Raising the threshold ----

  /** No detection has the same IoU with two labels of its class. */
  predicate NoTies(sc: Scene)
    requires sc.Valid()
  {
    forall d, l, l' :: 0 <= d < |sc.detCls| && 0 <= l < l' < |sc.gtCls| ==>
      sc.gtCls[l] == sc.gtCls[l'] == sc.detCls[d] ==> sc.iou[l][d] != sc.iou[l'][d]
  }

  /** A detection still in the race at the higher threshold has the best label it had before. */
  lemma BestPersists(sc: Scene, low: real, high: real, sorter: seq<Match> -> seq<Match>, m: Match)
    requires sc.Valid() && IsSorter(sorter) && NoTies(sc) && low <= high
    requires m in BestPer(Cands(sc, high), sorter, |sc.detCls|)
    ensures m in BestPer(Cands(sc, low), sorter, |sc.detCls|)
  {
    var labels, dets := |sc.gtCls|, |sc.detCls|;
    var lo, hi := Cands(sc, low), Cands(sc, high);
    CandsInBounds(sc, low);
    CandsInBounds(sc, high);
    BestIsCandidate(hi, sorter, dets, m);
    InRowsHas(sc, high, labels, m);
    InRowsHas(sc, low, labels, m);
    var b := BestPerDetection(lo, sorter, labels, dets, m);
    InRowsHas(sc, low, labels, b);
    InRowsHas(sc, high, labels, b);
    var b' := BestPerDetection(hi, sorter, labels, dets, b);
    BestIncreases(hi, sorter, dets);
    BestIsUnique(BestPer(hi, sorter, dets), b', m);
    assert b.gt == m.gt;
  }

  lemma SomeoneWins(cand: seq<Match>, sorter: seq<Match> -> seq<Match>, labels: nat, dets: nat, m: Match)
      returns (w: Match)
    requires IsSorter(sorter) && InBounds(cand, labels, dets) && m in BestPer(cand, sorter, dets)
    ensures w in Matches(cand, sorter, labels, dets) && w.gt == m.gt
  {
    var best := BestPer(cand, sorter, dets);
    BestIncreases(cand, sorter, dets);
    w := FirstWith(best, LabelOf(), m.gt).value;
    LowestIsFirst(best, w);
    MatchesAreWinners(cand, sorter, labels, dets, w);
  }

  function AllGts(ms: seq<Match>): set<nat> {
    if ms == [] then {} else AllGts(ms[..|ms| - 1]) + {ms[|ms| - 1].gt}
  }

  lemma {:induction false} AllGtsSize(ms: seq<Match>)
    requires OneToOne(ms)
    ensures |AllGts(ms)| == |ms|
    ensures forall x :: x in AllGts(ms) <==> exists k :: 0 <= k < |ms| && ms[k].gt == x
  {
    if ms != [] {
      var front := ms[..|ms| - 1];
      AllGtsSize(front);
      assert forall k :: 0 <= k < |front| ==> front[k] == ms[k];
      forall x
        ensures x in AllGts(ms) <==> exists k :: 0 <= k < |ms| && ms[k].gt == x
      {
        if x == ms[|ms| - 1].gt {
          assert ms[|ms| - 1].gt == x;
        }
      }
    }
  }

  /** A label matched at the higher threshold is matched at the lower one. */
  lemma StillMatched(sc: Scene, low: real, high: real, sorter: seq<Match> -> seq<Match>, m: Match) returns (w: Match)
    requires sc.Valid() && IsSorter(sorter) && NoTies(sc) && low <= high && m in MatchesAt(sc, high, sorter)
    ensures w in MatchesAt(sc, low, sorter) && w.gt == m.gt
  {
    CandsInBounds(sc, low);
    CandsInBounds(sc, high);
    MatchesAreWinners(Cands(sc, high), sorter, |sc.gtCls|, |sc.detCls|, m);
    BestPersists(sc, low, high, sorter, m);
    w := SomeoneWins(Cands(sc, low), sorter, |sc.gtCls|, |sc.detCls|, m);
  }

  lemma MatchedLabelsShrink(sc: Scene, low: real, high: real, sorter: seq<Match> -> seq<Match>, x: nat)
    requires sc.Valid() && IsSorter(sorter) && NoTies(sc) && low <= high
    requires OneToOne(MatchesAt(sc, low, sorter)) && OneToOne(MatchesAt(sc, high, sorter))
    requires x in AllGts(MatchesAt(sc, high, sorter))
    ensures x in AllGts(MatchesAt(sc, low, sorter))
  {
    var lo, hi := MatchesAt(sc, low, sorter), MatchesAt(sc, high, sorter);
    AllGtsSize(hi);
    var k :| 0 <= k < |hi| && hi[k].gt == x;
    var w := StillMatched(sc, low, high, sorter, hi[k]);
    AllGtsSize(lo);
    var j :| 0 <= j < |lo| && lo[j] == w;
  }

  /** The number of true positives never grows with the threshold. */
  lemma FewerAtHigherThreshold(sc: Scene, low: real, high: real, sorter: seq<Match> -> seq<Match>)
    requires sc.Valid() && IsSorter(sorter) && NoTies(sc) && low <= high
    ensures |MatchesAt(sc, high, sorter)| <= |MatchesAt(sc, low, sorter)|
  {
    var lo, hi := MatchesAt(sc, low, sorter), MatchesAt(sc, high, sorter);
    MatchesAreMatching(Cands(sc, low), sorter, |sc.gtCls|, |sc.detCls|);
    MatchesAreMatching(Cands(sc, high), sorter, |sc.gtCls|, |sc.detCls|);
    AllGtsSize(lo);
    AllGtsSize(hi);
    forall x | x in AllGts(hi)
      ensures x in AllGts(lo)
    {
      MatchedLabelsShrink(sc, low, high, sorter, x);
    }
    SubsetSize(AllGts(hi), AllGts(lo));
  }

  function Marked(ms: seq<Match>): set<nat> {
    if ms == [] then {} else Marked(ms[..|ms| - 1]) + {ms[|ms| - 1].det}
  }

  /** A column of the result has one mark per match. */
  lemma {:induction false} MarksAreMatches(ms: seq<Match>)
    requires OneToOne(ms)
    ensures |Marked(ms)| == |ms| && forall d: nat :: d in Marked(ms) <==> Correct(ms, d)
  {
    if ms != [] {
      MarksAreMatches(ms[..|ms| - 1]);
      CorrectSnoc(ms, |ms| - 1);
      assert ms[..|ms| - 1 + 1] == ms;
    }
  }

  // ---- When a mark survives a lower threshold ----

  /** Detection `d` has label `l` as its best of its class. */
  predicate Prefers(sc: Scene, d: nat, l: nat)
    requires sc.Valid() && d < |sc.detCls| && l < |sc.gtCls|
  {
    && sc.gtCls[l] == sc.detCls[d]
    && forall k :: 0 <= k < |sc.gtCls| && sc.gtCls[k] == sc.detCls[d] ==> sc.iou[k][d] <= sc.iou[l][d]
  }

  /** The first pass, from the scene alone: a detection's preferred label, if its IoU reaches the threshold. */
  lemma BestIsPreferred(sc: Scene, thres: real, sorter: seq<Match> -> seq<Match>, m: Match)
    requires sc.Valid() && IsSorter(sorter) && NoTies(sc)
    ensures m in BestPer(Cands(sc, thres), sorter, |sc.detCls|) <==>
            && m.gt < |sc.gtCls| && m.det < |sc.detCls| && m.iou == sc.iou[m.gt][m.det] >= thres
            && Prefers(sc, m.det, m.gt)
  {
    var labels, dets := |sc.gtCls|, |sc.detCls|;
    var cand := Cands(sc, thres);
    CandsInBounds(sc, thres);
    InRowsHas(sc, thres, labels, m);
    if m in BestPer(cand, sorter, dets) {
      BestIsCandidate(cand, sorter, dets, m);
      forall k | 0 <= k < labels && sc.gtCls[k] == sc.detCls[m.det]
        ensures sc.iou[k][m.det] <= m.iou
      {
        NoneBetter(sc, thres, sorter, m, k);
      }
    }
    if m in cand && Prefers(sc, m.det, m.gt) {
      var b := BestPerDetection(cand, sorter, labels, dets, m);
      InRowsHas(sc, thres, labels, b);
      assert b == m;
    }
  }

  lemma NoneBetter(sc: Scene, thres: real, sorter: seq<Match> -> seq<Match>, m: Match, k: nat)
    requires sc.Valid() && IsSorter(sorter) && m in BestPer(Cands(sc, thres), sorter, |sc.detCls|)
        && m in Cands(sc, thres)
    requires m.gt < |sc.gtCls| && m.det < |sc.detCls| && k < |sc.gtCls| && sc.gtCls[k] == sc.detCls[m.det]
    ensures sc.iou[k][m.det] <= m.iou
  {
    var labels, dets, cand := |sc.gtCls|, |sc.detCls|, Cands(sc, thres);
    CandsInBounds(sc, thres);
    InRowsHas(sc, thres, labels, m);
    if sc.iou[k][m.det] >= thres {
      var c := Match(k, m.det, sc.iou[k][m.det]);
      InRowsHas(sc, thres, labels, c);
      var b := BestPerDetection(cand, sorter, labels, dets, c);
      BestIncreases(cand, sorter, dets);
      BestIsUnique(BestPer(cand, sorter, dets), b, m);
    }
  }

  /** A lower detection that prefers the label of `m` and enters the race between the two thresholds. */
  predicate Rival(sc: Scene, low: real, high: real, m: Match, d: nat)
    requires sc.Valid() && m.gt < |sc.gtCls|
  {
    d < m.det && d < |sc.detCls| && Prefers(sc, d, m.gt) && low <= sc.iou[m.gt][d] < high
  }

  /** At one threshold a detection is marked exactly when its best candidate is a match. */
  lemma MarkedByBest(sc: Scene, thres: real, sorter: seq<Match> -> seq<Match>, m: Match)
    requires sc.Valid() && IsSorter(sorter) && m in BestPer(Cands(sc, thres), sorter, |sc.detCls|)
    ensures Correct(MatchesAt(sc, thres, sorter), m.det) <==> Wins(BestPer(Cands(sc, thres), sorter, |sc.detCls|), m)
  {
    var labels, dets, cand := |sc.gtCls|, |sc.detCls|, Cands(sc, thres);
    var ms := MatchesAt(sc, thres, sorter);
    CandsInBounds(sc, thres);
    MatchesAreWinners(cand, sorter, labels, dets, m);
    if Correct(ms, m.det) {
      var k :| 0 <= k < |ms| && ms[k].det == m.det;
      assert ms[k] in ms;
      MatchesAreWinners(cand, sorter, labels, dets, ms[k]);
      BestIncreases(cand, sorter, dets);
      BestIsUnique(BestPer(cand, sorter, dets), ms[k], m);
    }
    if m in ms {
      var k :| 0 <= k < |ms| && ms[k] == m;
    }
  }

  /** A mark made at the higher threshold is there at the lower one exactly when there is no rival. */
  lemma MarkSurvivesIffNoRival(sc: Scene, low: real, high: real, sorter: seq<Match> -> seq<Match>, m: Match)
    requires sc.Valid() && IsSorter(sorter) && NoTies(sc) && low <= high && m in MatchesAt(sc, high, sorter)
    ensures m.gt < |sc.gtCls|
    ensures Correct(MatchesAt(sc, low, sorter), m.det) <==> !exists d: nat :: Rival(sc, low, high, m, d)
  {
    var labels, dets := |sc.gtCls|, |sc.detCls|;
    var lo, hi := BestPer(Cands(sc, low), sorter, dets), BestPer(Cands(sc, high), sorter, dets);
    CandsInBounds(sc, high);
    MatchesAreWinners(Cands(sc, high), sorter, labels, dets, m);
    BestPersists(sc, low, high, sorter, m);
    BestIsPreferred(sc, high, sorter, m);
    MarkedByBest(sc, low, sorter, m);
    if d: nat :| Rival(sc, low, high, m, d) {
      var b := Match(m.gt, d, sc.iou[m.gt][d]);
      BestIsPreferred(sc, low, sorter, b);
      var i :| 0 <= i < |lo| && lo[i] == b;
    }
    if !Wins(lo, m) {
      var i :| 0 <= i < |lo| && lo[i].gt == m.gt && lo[i].det < m.det;
      BestIsPreferred(sc, low, sorter, lo[i]);
      BestIsPreferred(sc, high, sorter, lo[i]);
      assert lo[i] !in hi;
      assert Rival(sc, low, high, m, lo[i].det);
    }
  }

  /** So a single detection's mark may come on: one label, two detections, the lower one with the
      smaller IoU; raising the threshold past it hands the label to the other. */
  lemma MarkCanComeOn(sorter: seq<Match> -> seq<Match>)
    requires IsSorter(sorter)
    ensures var sc := Scene([[0.6, 0.8]], [0], [0, 0]);
            && sc.Valid() && NoTies(sc)
            && !Correct(MatchesAt(sc, 0.5, sorter), 1) && Correct(MatchesAt(sc, 0.7, sorter), 1)
  {
    var sc, b := Scene([[0.6, 0.8]], [0], [0, 0]), Match(0, 1, 0.8);
    assert InRow(sc, 0.7, 0, 0) == [] && InRow(sc, 0.7, 0, 1) == [] && InRow(sc, 0.7, 0, 2) == [b];
    assert InRows(sc, 0.7, 0) == [] && Cands(sc, 0.7) == InRows(sc, 0.7, 1) == [b];
    assert MatchesAt(sc, 0.7, sorter)[0] == b;
    assert Rival(sc, 0.5, 0.7, b, 0);
    MarkSurvivesIffNoRival(sc, 0.5, 0.7, sorter, b);
  }
}
