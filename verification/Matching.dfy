/** Matching detections to labels by IoU with sort-and-unique passes (yolov5/val.py `process_batch`,
    yolov5/utils/metrics.py `ConfusionMatrix.process_batch`).  The IoU matrix is arbitrary; `sorter` is
    numpy's `argsort()[::-1]` on the IoU column, whose order among equal values is not specified. */
module Matching {
  import opened Messages
  import opened Sorting

  /** A row of `matches`. */
  datatype Match = Match(gt: nat, det: nat, iou: real)

  predicate Descending(s: seq<Match>) {
    forall i, j :: 0 <= i < j < |s| ==> s[i].iou >= s[j].iou
  }

  ghost predicate IsSorter(sorter: seq<Match> -> seq<Match>) {
    forall s :: multiset(sorter(s)) == multiset(s) && Descending(sorter(s))
  }

  /** A stable sort is one such order. */
  lemma SorterExists()
    ensures exists sorter :: IsSorter(sorter)
  {
    var key := (m: Match) => m.iou;
    var sorter := (s: seq<Match>) => SortBy(s, key);
    forall s: seq<Match>
      ensures multiset(sorter(s)) == multiset(s) && Descending(sorter(s))
    {
      SortBySorts(s, key);
      forall i, j | 0 <= i < j < |sorter(s)|
        ensures sorter(s)[i].iou >= sorter(s)[j].iou
      {
        assert key(sorter(s)[i]) >= key(sorter(s)[j]);
      }
    }
    assert IsSorter(sorter);
  }

  // ---- np.unique(..., return_index=True) ----

  function FirstWith(s: seq<Match>, key: Match -> nat, k: nat): (r: Option<Match>)
    ensures r.Some? ==> r.value in s && key(r.value) == k
    ensures r.None? <==> forall i :: 0 <= i < |s| ==> key(s[i]) != k
  {
    if s == [] then None
    else if key(s[0]) == k then Some(s[0])
    else FirstWith(s[1..], key, k)
  }

  /** For each key below `n`, in order, the first row with it. */
  function FirstPer(s: seq<Match>, key: Match -> nat, n: nat): seq<Match> {
    if n == 0 then []
    else FirstPer(s, key, n - 1) + match FirstWith(s, key, n - 1)
                                   case Some(m) => [m]
                                   case None => []
  }

  predicate Increasing(s: seq<Match>, key: Match -> nat) {
    forall i, j :: 0 <= i < j < |s| ==> key(s[i]) < key(s[j])
  }

  lemma {:induction false} FirstPerIncreases(s: seq<Match>, key: Match -> nat, n: nat)
    ensures Increasing(FirstPer(s, key, n), key)
    ensures forall i :: 0 <= i < |FirstPer(s, key, n)| ==> key(FirstPer(s, key, n)[i]) < n
  {
    if n > 0 {
      FirstPerIncreases(s, key, n - 1);
    }
  }

  lemma {:induction false} FirstPerHas(s: seq<Match>, key: Match -> nat, n: nat, m: Match)
    ensures m in FirstPer(s, key, n) <==> key(m) < n && FirstWith(s, key, key(m)) == Some(m)
  {
    if n > 0 {
      FirstPerHas(s, key, n - 1, m);
    }
  }

  lemma {:induction false} FirstWithIsFirst(s: seq<Match>, key: Match -> nat, k: nat, i: nat)
    requires i < |s| && key(s[i]) == k
    ensures exists j :: 0 <= j <= i && FirstWith(s, key, k) == Some(s[j])
  {
    if key(s[0]) != k {
      FirstWithIsFirst(s[1..], key, k, i - 1);
      var j :| 0 <= j <= i - 1 && FirstWith(s[1..], key, k) == Some(s[1..][j]);
      assert s[j + 1] == s[1..][j];
    }
  }

  // ---- The passes ----

  function DetOf(): Match -> nat { (m: Match) => m.det }
  function LabelOf(): Match -> nat { (m: Match) => m.gt }

  /** After the first pass: each detection's best candidate. */
  function BestPer(cand: seq<Match>, sorter: seq<Match> -> seq<Match>, dets: nat): seq<Match> {
    FirstPer(sorter(cand), DetOf(), dets)
  }

  /** `process_batch` in val.py: the second pass takes the lowest detection, as it does not sort again.
      A single candidate skips both passes. */
  function Matches(cand: seq<Match>, sorter: seq<Match> -> seq<Match>, labels: nat, dets: nat): seq<Match> {
    if |cand| <= 1 then cand else FirstPer(BestPer(cand, sorter, dets), LabelOf(), labels)
  }

  /** The confusion matrix sorts again in between, so its second pass takes the highest IoU. */
  function ResortedMatches(cand: seq<Match>, sorter: seq<Match> -> seq<Match>, labels: nat, dets: nat): seq<Match> {
    if |cand| <= 1 then cand else FirstPer(sorter(BestPer(cand, sorter, dets)), LabelOf(), labels)
  }

  predicate InBounds(cand: seq<Match>, labels: nat, dets: nat) {
    forall i :: 0 <= i < |cand| ==> cand[i].gt < labels && cand[i].det < dets
  }

  /** Each detection and each label at most once, from the candidates. */
  predicate IsMatching(ms: seq<Match>, cand: seq<Match>) {
    && (forall m :: m in ms ==> m in cand)
    && (forall i, j :: 0 <= i < j < |ms| ==> ms[i].det != ms[j].det && ms[i].gt != ms[j].gt)
  }

  lemma SortedHas(cand: seq<Match>, sorter: seq<Match> -> seq<Match>, m: Match)
    requires IsSorter(sorter)
    ensures m in sorter(cand) <==> m in cand
  {
    assert m in sorter(cand) <==> m in multiset(sorter(cand));
    assert m in cand <==> m in multiset(cand);
  }

  lemma BestIncreases(cand: seq<Match>, sorter: seq<Match> -> seq<Match>, dets: nat)
    ensures Increasing(BestPer(cand, sorter, dets), DetOf())
  {
    FirstPerIncreases(sorter(cand), DetOf(), dets);
  }

  lemma BestIsCandidate(cand: seq<Match>, sorter: seq<Match> -> seq<Match>, dets: nat, m: Match)
    requires IsSorter(sorter) && m in BestPer(cand, sorter, dets)
    ensures m in cand
  {
    FirstPerHas(sorter(cand), DetOf(), dets, m);
    SortedHas(cand, sorter, m);
  }

  /** The first pass keeps, for every detection with a candidate, exactly one, of greatest IoU. */
  lemma BestPerDetection(cand: seq<Match>, sorter: seq<Match> -> seq<Match>, labels: nat, dets: nat, c: Match)
      returns (m: Match)
    requires IsSorter(sorter) && InBounds(cand, labels, dets) && c in cand
    ensures m in BestPer(cand, sorter, dets) && m in cand && m.det == c.det && m.iou >= c.iou
  {
    var s := sorter(cand);
    SortedHas(cand, sorter, c);
    var i :| 0 <= i < |s| && s[i] == c;
    FirstWithIsFirst(s, DetOf(), c.det, i);
    var j :| 0 <= j <= i && FirstWith(s, DetOf(), c.det) == Some(s[j]);
    m := s[j];
    assert Descending(s);
    FirstPerHas(s, DetOf(), dets, m);
    SortedHas(cand, sorter, m);
  }

  /** Two best candidates of one detection are the same row. */
  lemma BestIsUnique(best: seq<Match>, m: Match, m': Match)
    requires Increasing(best, DetOf()) && m in best && m' in best && m.det == m'.det
    ensures m == m'
  {
    var i :| 0 <= i < |best| && best[i] == m;
    var j :| 0 <= j < |best| && best[j] == m';
    assert DetOf()(best[i]) == DetOf()(best[j]);
  }

  /** The second pass, on the best candidates in any order `s`, makes a matching. */
  lemma SecondPassMatches(best: seq<Match>, s: seq<Match>, labels: nat)
    requires Increasing(best, DetOf()) && forall m :: m in s ==> m in best
    ensures IsMatching(FirstPer(s, LabelOf(), labels), best)
  {
    var ms := FirstPer(s, LabelOf(), labels);
    FirstPerIncreases(s, LabelOf(), labels);
    forall m | m in ms
      ensures m in best
    {
      FirstPerHas(s, LabelOf(), labels, m);
    }
    forall i, j | 0 <= i < j < |ms|
      ensures ms[i].det != ms[j].det && ms[i].gt != ms[j].gt
    {
      assert LabelOf()(ms[i]) < LabelOf()(ms[j]);
      assert ms[i] in ms && ms[j] in ms;
      if ms[i].det == ms[j].det {
        BestIsUnique(best, ms[i], ms[j]);
        assert false;
      }
    }
  }

  lemma MatchingWidens(ms: seq<Match>, best: seq<Match>, cand: seq<Match>, sorter: seq<Match> -> seq<Match>, dets: nat)
    requires IsSorter(sorter) && best == BestPer(cand, sorter, dets) && IsMatching(ms, best)
    ensures IsMatching(ms, cand)
  {
    forall m | m in ms
      ensures m in cand
    {
      BestIsCandidate(cand, sorter, dets, m);
    }
  }

  /** Both versions match each detection and each label at most once, with candidates only. */
  lemma MatchesAreMatching(cand: seq<Match>, sorter: seq<Match> -> seq<Match>, labels: nat, dets: nat)
    requires IsSorter(sorter)
    ensures IsMatching(Matches(cand, sorter, labels, dets), cand)
    ensures IsMatching(ResortedMatches(cand, sorter, labels, dets), cand)
  {
    if |cand| > 1 {
      var best := BestPer(cand, sorter, dets);
      BestIncreases(cand, sorter, dets);
      forall m | m in sorter(best)
        ensures m in best
      {
        SortedHas(best, sorter, m);
      }
      SecondPassMatches(best, best, labels);
      SecondPassMatches(best, sorter(best), labels);
      MatchingWidens(Matches(cand, sorter, labels, dets), best, cand, sorter, dets);
      MatchingWidens(ResortedMatches(cand, sorter, labels, dets), best, cand, sorter, dets);
    }
  }

  /** With the second sort, a label that is some detection's best is matched, with the highest IoU of those. */
  lemma ResortedTakesHighest(cand: seq<Match>, sorter: seq<Match> -> seq<Match>, labels: nat, dets: nat, b: Match)
      returns (m: Match)
    requires IsSorter(sorter) && InBounds(cand, labels, dets) && b in BestPer(cand, sorter, dets)
    ensures m in ResortedMatches(cand, sorter, labels, dets) && m.gt == b.gt && m.iou >= b.iou
  {
    BestIsCandidate(cand, sorter, dets, b);
    if |cand| <= 1 {
      m := b;
    } else {
      var best := BestPer(cand, sorter, dets);
      var s := sorter(best);
      SortedHas(best, sorter, b);
      var i :| 0 <= i < |s| && s[i] == b;
      FirstWithIsFirst(s, LabelOf(), b.gt, i);
      var j :| 0 <= j <= i && FirstWith(s, LabelOf(), b.gt) == Some(s[j]);
      m := s[j];
      assert Descending(s);
      FirstPerHas(s, LabelOf(), labels, m);
    }
  }

  // ---- Which detections win (val.py) ----

  /** `m` is its detection's best candidate and no lower detection has the same label as its best. */
  predicate Wins(best: seq<Match>, m: Match) {
    m in best && forall i :: 0 <= i < |best| && best[i].gt == m.gt ==> best[i].det >= m.det
  }

  lemma FirstIsLowest(best: seq<Match>, m: Match, i: nat)
    requires Increasing(best, DetOf()) && FirstWith(best, LabelOf(), m.gt) == Some(m)
    requires i < |best| && best[i].gt == m.gt
    ensures best[i].det >= m.det
  {
    FirstWithIsFirst(best, LabelOf(), m.gt, i);
    var j :| 0 <= j <= i && FirstWith(best, LabelOf(), m.gt) == Some(best[j]);
    assert j < i ==> DetOf()(best[j]) < DetOf()(best[i]);
  }

  lemma LowestIsFirst(best: seq<Match>, m: Match)
    requires Increasing(best, DetOf())
    ensures FirstWith(best, LabelOf(), m.gt) == Some(m) <==> Wins(best, m)
  {
    if FirstWith(best, LabelOf(), m.gt) == Some(m) {
      forall i | 0 <= i < |best| && best[i].gt == m.gt
        ensures best[i].det >= m.det
      {
        FirstIsLowest(best, m, i);
      }
    }
    if Wins(best, m) {
      var k :| 0 <= k < |best| && best[k] == m;
      FirstWithIsFirst(best, LabelOf(), m.gt, k);
      var j :| 0 <= j <= k && FirstWith(best, LabelOf(), m.gt) == Some(best[j]);
      assert DetOf()(best[j]) >= DetOf()(best[k]);
    }
  }

  /** A match is made exactly for the lowest detection among those whose best label it is. */
  lemma MatchesAreWinners(cand: seq<Match>, sorter: seq<Match> -> seq<Match>, labels: nat, dets: nat, m: Match)
    requires IsSorter(sorter) && InBounds(cand, labels, dets)
    ensures m in Matches(cand, sorter, labels, dets) <==> Wins(BestPer(cand, sorter, dets), m)
  {
    var best := BestPer(cand, sorter, dets);
    BestIncreases(cand, sorter, dets);
    if |cand| <= 1 {
      OneCandidate(cand, sorter, labels, dets, m);
    } else {
      FirstPerHas(best, LabelOf(), labels, m);
      LowestIsFirst(best, m);
      if m in best {
        BestIsCandidate(cand, sorter, dets, m);
      }
    }
  }

  lemma OneCandidate(cand: seq<Match>, sorter: seq<Match> -> seq<Match>, labels: nat, dets: nat, m: Match)
    requires IsSorter(sorter) && InBounds(cand, labels, dets) && |cand| <= 1
    ensures m in cand <==> Wins(BestPer(cand, sorter, dets), m)
  {
    var best := BestPer(cand, sorter, dets);
    if m in cand {
      var b := BestPerDetection(cand, sorter, labels, dets, m);
      assert b == m;
      forall i | 0 <= i < |best|
        ensures best[i] == m
      {
        BestIsCandidate(cand, sorter, dets, best[i]);
      }
    }
    if m in best {
      BestIsCandidate(cand, sorter, dets, m);
    }
  }
}
