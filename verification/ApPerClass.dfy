/** Average precision of every class of a data set (yolov5/utils/metrics.py `ap_per_class`,
    yolov5/val.py's statistics loop). */
module ApPerClass {
  import opened Matching
  import opened TruePositives
  import opened AveragePrecision
  import opened Sorting

  /** A detection of the whole data set: its mark at each IoU threshold, confidence and class. */
  datatype Prediction = Prediction(tp: seq<bool>, conf: real, cls: nat)

  predicate Columns(rows: seq<Prediction>, cols: nat) {
    forall i :: 0 <= i < |rows| ==> |rows[i].tp| == cols
  }

  predicate ByConfidence(rows: seq<Prediction>) {
    forall i, j :: 0 <= i < j < |rows| ==> rows[i].conf >= rows[j].conf
  }

  /** `x[np.argsort(-conf)]`: some order by falling confidence. */
  ghost predicate IsRanker(ranker: seq<Prediction> -> seq<Prediction>) {
    forall s :: multiset(ranker(s)) == multiset(s) && ByConfidence(ranker(s))
  }

  /** A stable sort is one such order. */
  lemma RankerExists()
    ensures exists ranker :: IsRanker(ranker)
  {
    var key := (p: Prediction) => p.conf;
    var ranker := (s: seq<Prediction>) => SortBy(s, key);
    forall s: seq<Prediction>
      ensures multiset(ranker(s)) == multiset(s) && ByConfidence(ranker(s))
    {
      SortBySorts(s, key);
      forall i, j | 0 <= i < j < |ranker(s)|
        ensures ranker(s)[i].conf >= ranker(s)[j].conf
      {
        assert key(ranker(s)[i]) >= key(ranker(s)[j]);
      }
    }
    assert IsRanker(ranker);
  }

  // ---- np.unique ----

  function InsertNew(x: nat, s: seq<nat>): seq<nat> {
    if s == [] || x < s[0] then [x] + s else if x == s[0] then s else [s[0]] + InsertNew(x, s[1..])
  }

  function Unique(s: seq<nat>): seq<nat> {
    if s == [] then [] else InsertNew(s[0], Unique(s[1..]))
  }

  predicate Ascending(s: seq<nat>) { forall i, j :: 0 <= i < j < |s| ==> s[i] < s[j] }

  lemma {:induction false} InsertKeeps(x: nat, s: seq<nat>)
    requires Ascending(s)
    ensures Ascending(InsertNew(x, s))
    ensures forall y :: y in InsertNew(x, s) <==> y == x || y in s
  {
    if s != [] && x > s[0] {
      InsertKeeps(x, s[1..]);
      var t := InsertNew(x, s[1..]);
      assert s == [s[0]] + s[1..] && InsertNew(x, s) == [s[0]] + t;
      forall j | 0 <= j < |t|
        ensures s[0] < t[j]
      {
        assert t[j] in t;
      }
    }
  }

  /** Each class once, in order. */
  lemma {:induction false} UniqueIs(s: seq<nat>)
    ensures Ascending(Unique(s)) && forall y :: y in Unique(s) <==> y in s
  {
    if s != [] {
      UniqueIs(s[1..]);
      InsertKeeps(s[0], Unique(s[1..]));
    }
  }

  // ---- The loop ----

  /** Column `j` of the rows of class `c`. */
  function FlagsOf(rows: seq<Prediction>, c: nat, j: nat): seq<bool>
    requires forall i :: 0 <= i < |rows| ==> j < |rows[i].tp|
  {
    if rows == [] then []
    else
      var last := rows[|rows| - 1];
      FlagsOf(rows[..|rows| - 1], c, j) + if last.cls == c then [last.tp[j]] else []
  }

  function ScoreFor(ranked: seq<Prediction>, nl: nat, c: nat, j: nat, eps: Epsilon): real
    requires forall i :: 0 <= i < |ranked| ==> j < |ranked[i].tp|
  {
    var flags := FlagsOf(ranked, c, j);
    if flags == [] || nl == 0 then 0.0 else ComputeAp(Recall(flags, nl, eps), Precision(flags))
  }

  function ScoreOf(ranked: seq<Prediction>, targets: seq<nat>, c: nat, j: nat, eps: Epsilon): real
    requires forall i :: 0 <= i < |ranked| ==> j < |ranked[i].tp|
  {
    ScoreFor(ranked, multiset(targets)[c], c, j, eps)
  }

  lemma RankedColumns(ranker: seq<Prediction> -> seq<Prediction>, rows: seq<Prediction>, cols: nat)
    requires IsRanker(ranker) && Columns(rows, cols)
    ensures Columns(ranker(rows), cols)
  {
    var ranked := ranker(rows);
    forall i | 0 <= i < |ranked|
      ensures |ranked[i].tp| == cols
    {
      assert ranked[i] in multiset(ranked) && ranked[i] in multiset(rows);
    }
  }

  method ScorePerClass(rows: seq<Prediction>, targets: seq<nat>, cols: nat,
                       ranker: seq<Prediction> -> seq<Prediction>, eps: Epsilon := EPS)
    returns (classes: seq<nat>, ap: array2<real>)
    requires IsRanker(ranker) && Columns(rows, cols)
    ensures classes == Unique(targets) && ap.Length0 == |classes| && ap.Length1 == cols
    ensures Columns(ranker(rows), cols)
    ensures forall ci, j :: 0 <= ci < |classes| && 0 <= j < cols ==>
              ap[ci, j] == ScoreOf(ranker(rows), targets, classes[ci], j, eps)
  {
    var ranked := ranker(rows);
    RankedColumns(ranker, rows, cols);
    classes := Unique(targets);
    ap := new real[|classes|, cols]((_, _) => 0.0);
    for ci := 0 to |classes|
      invariant forall k, j :: 0 <= k < ci && 0 <= j < cols ==> ap[k, j] == ScoreOf(ranked, targets, classes[k], j, eps)
      invariant forall k, j :: ci <= k < |classes| && 0 <= j < cols ==> ap[k, j] == 0.0
    {
      var row := ScoreRow(ranked, classes[ci], multiset(targets)[classes[ci]], cols, eps);
      WriteRow(ap, ci, row);
    }
  }

  /** One class; without predictions or labels its scores stay zero. */
  method ScoreRow(ranked: seq<Prediction>, c: nat, nl: nat, cols: nat, eps: Epsilon) returns (row: seq<real>)
    requires Columns(ranked, cols)
    ensures |row| == cols && forall j :: 0 <= j < cols ==> row[j] == ScoreFor(ranked, nl, c, j, eps)
  {
    var np := CountOf(ranked, c);
    if np == 0 || nl == 0 {
      NoScore(ranked, nl, c, cols, eps);
      row := seq(cols, _ => 0.0);
    } else {
      row := ScoreClass(ranked, c, nl, cols, eps);
    }
  }

  method WriteRow(ap: array2<real>, ci: nat, row: seq<real>)
    requires ci < ap.Length0 && |row| == ap.Length1
    modifies ap
    ensures forall j :: 0 <= j < ap.Length1 ==> ap[ci, j] == row[j]
    ensures forall k, j :: 0 <= k < ap.Length0 && 0 <= j < ap.Length1 && k != ci ==> ap[k, j] == old(ap[k, j])
  {
    forall j | 0 <= j < ap.Length1 {
      ap[ci, j] := row[j];
    }
  }

  /** One class, at every threshold. */
  method ScoreClass(ranked: seq<Prediction>, c: nat, nl: nat, cols: nat, eps: Epsilon) returns (row: seq<real>)
    requires Columns(ranked, cols) && CountOf(ranked, c) != 0 && nl != 0
    ensures |row| == cols && forall j :: 0 <= j < cols ==> row[j] == ScoreFor(ranked, nl, c, j, eps)
  {
    row := [];
    for j := 0 to cols
      invariant |row| == j && forall h :: 0 <= h < j ==> row[h] == ScoreFor(ranked, nl, c, h, eps)
    {
      var score := ScoreColumn(ranked, c, nl, j, eps);
      row := row + [score];
    }
  }

  method ScoreColumn(ranked: seq<Prediction>, c: nat, nl: nat, j: nat, eps: Epsilon) returns (score: real)
    requires (forall i :: 0 <= i < |ranked| ==> j < |ranked[i].tp|) && CountOf(ranked, c) != 0 && nl != 0
    ensures score == ScoreFor(ranked, nl, c, j, eps)
  {
    FlagsLength(ranked, c, j);
    var flags := FlagsOf(ranked, c, j);
    score := ComputeAp(Recall(flags, nl, eps), Precision(flags));
  }

  lemma NoScore(ranked: seq<Prediction>, nl: nat, c: nat, cols: nat, eps: Epsilon)
    requires Columns(ranked, cols) && (CountOf(ranked, c) == 0 || nl == 0)
    ensures forall j :: 0 <= j < cols ==> ScoreFor(ranked, nl, c, j, eps) == 0.0
  {
    forall j | 0 <= j < cols
      ensures ScoreFor(ranked, nl, c, j, eps) == 0.0
    {
      FlagsLength(ranked, c, j);
    }
  }

  /** `n_p = (pred_cls == c).sum()`. */
  function CountOf(rows: seq<Prediction>, c: nat): nat {
    if rows == [] then 0
    else CountOf(rows[..|rows| - 1], c) + if rows[|rows| - 1].cls == c then 1 else 0
  }

  lemma {:induction false} FlagsLength(rows: seq<Prediction>, c: nat, j: nat)
    requires forall i :: 0 <= i < |rows| ==> j < |rows[i].tp|
    ensures |FlagsOf(rows, c, j)| == CountOf(rows, c)
  {
    if rows != [] { FlagsLength(rows[..|rows| - 1], c, j); }
  }

  // ---- True positives of a data set ----

  predicate IsHit(p: Prediction, c: nat, j: nat) { p.cls == c && j < |p.tp| && p.tp[j] }

  function Hits(rows: seq<Prediction>, c: nat, j: nat): nat {
    if rows == [] then 0
    else Hits(rows[..|rows| - 1], c, j) + if IsHit(rows[|rows| - 1], c, j) then 1 else 0
  }

  lemma {:induction false} HitsConcat(a: seq<Prediction>, b: seq<Prediction>, c: nat, j: nat)
    ensures Hits(a + b, c, j) == Hits(a, c, j) + Hits(b, c, j)
  {
    if b == [] {
      assert a + b == a;
    } else {
      HitsConcat(a, b[..|b| - 1], c, j);
      assert (a + b)[..|a + b| - 1] == a + b[..|b| - 1];
    }
  }

  lemma WithoutOne(t: seq<Prediction>, k: nat)
    requires k < |t|
    ensures multiset(t) == multiset(t[..k] + t[k + 1..]) + multiset{t[k]}
  {
    assert t == t[..k] + [t[k]] + t[k + 1..];
  }

  lemma TakeOut(s: seq<Prediction>, t: seq<Prediction>) returns (k: nat)
    requires s != [] && multiset(s) == multiset(t)
    ensures k < |t| && t[k] == s[|s| - 1] && multiset(s[..|s| - 1]) == multiset(t[..k] + t[k + 1..])
  {
    var n := |s| - 1;
    WithoutOne(s, n);
    assert s[..n] + s[n + 1..] == s[..n];
    assert s[n] in multiset(t);
    k :| 0 <= k < |t| && t[k] == s[n];
    WithoutOne(t, k);
    MinusOne(multiset(s[..n]), multiset(t[..k] + t[k + 1..]), s[n]);
  }

  lemma MinusOne(a: multiset<Prediction>, b: multiset<Prediction>, x: Prediction)
    requires a + multiset{x} == b + multiset{x}
    ensures a == b
  {
    assert a == (a + multiset{x}) - multiset{x};
    assert b == (b + multiset{x}) - multiset{x};
  }

  lemma HitsSplit(t: seq<Prediction>, k: nat, c: nat, j: nat)
    requires k < |t|
    ensures Hits(t, c, j) == Hits(t[..k] + t[k + 1..], c, j) + if IsHit(t[k], c, j) then 1 else 0
  {
    HitsConcat(t[..k + 1], t[k + 1..], c, j);
    HitsConcat(t[..k], t[k + 1..], c, j);
    assert t == t[..k + 1] + t[k + 1..] && t[..k + 1][..k] == t[..k];
  }

  /** Ranking does not change the number of true positives. */
  lemma {:induction false} HitsPermuted(s: seq<Prediction>, t: seq<Prediction>, c: nat, j: nat)
    requires multiset(s) == multiset(t)
    ensures Hits(s, c, j) == Hits(t, c, j)
  {
    if s == [] {
      assert |t| == |multiset(t)| == 0;
    } else {
      var k := TakeOut(s, t);
      HitsPermuted(s[..|s| - 1], t[..k] + t[k + 1..], c, j);
      HitsSplit(t, k, c, j);
    }
  }

  lemma {:induction false} HitsAreTrues(rows: seq<Prediction>, c: nat, j: nat)
    requires forall i :: 0 <= i < |rows| ==> j < |rows[i].tp|
    ensures var flags := FlagsOf(rows, c, j); Trues(flags, |flags|) == Hits(rows, c, j)
  {
    if rows != [] {
      var front, last := rows[..|rows| - 1], rows[|rows| - 1];
      HitsAreTrues(front, c, j);
      var flags := FlagsOf(front, c, j);
      if last.cls == c {
        TruesOfPrefix(flags, [last.tp[j]], |flags|);
        var all := flags + [last.tp[j]];
        assert FlagsOf(rows, c, j) == all && all[|flags|] == last.tp[j];
        assert Trues(all, |all|) == Trues(all, |flags|) + if last.tp[j] then 1 else 0;
      } else {
        assert FlagsOf(rows, c, j) == flags;
      }
    }
  }

  lemma {:induction false} TruesOfPrefix(a: seq<bool>, b: seq<bool>, k: nat)
    requires k <= |a|
    ensures Trues(a + b, k) == Trues(a, k)
  {
    if k > 0 { TruesOfPrefix(a, b, k - 1); }
  }

  /** An image: its scene and the confidence of each detection. */
  datatype Image = Image(sc: Scene, conf: seq<real>) {
    predicate Valid() { sc.Valid() && |conf| == |sc.detCls| }
  }

  /** The marks of detection `d` at every threshold. */
  function MarksOf(sc: Scene, iouv: seq<real>, sorter: seq<Match> -> seq<Match>, d: nat): (tp: seq<bool>)
    requires sc.Valid()
    ensures |tp| == |iouv| && forall i :: 0 <= i < |iouv| ==> tp[i] == Correct(MatchesAt(sc, iouv[i], sorter), d)
  {
    seq(|iouv|, i requires 0 <= i < |iouv| => Correct(MatchesAt(sc, iouv[i], sorter), d))
  }

  function RowsOf(im: Image, iouv: seq<real>, sorter: seq<Match> -> seq<Match>, n: nat): seq<Prediction>
    requires im.Valid() && n <= |im.conf|
  {
    if n == 0 then []
    else RowsOf(im, iouv, sorter, n - 1) + [Prediction(MarksOf(im.sc, iouv, sorter, n - 1), im.conf[n - 1],
                                                       im.sc.detCls[n - 1])]
  }

  /** `stats`, concatenated: an image without labels has no matches, one without detections no rows. */
  function AllRows(images: seq<Image>, iouv: seq<real>, sorter: seq<Match> -> seq<Match>): seq<Prediction>
    requires forall i :: 0 <= i < |images| ==> images[i].Valid()
  {
    if images == [] then []
    else
      var last := images[|images| - 1];
      AllRows(images[..|images| - 1], iouv, sorter) + RowsOf(last, iouv, sorter, |last.conf|)
  }

  function AllTargets(images: seq<Image>): seq<nat> {
    if images == [] then [] else AllTargets(images[..|images| - 1]) + images[|images| - 1].sc.gtCls
  }

  /** How many detections the images before the `n`-th have. */
  function Before(images: seq<Image>, n: nat): nat
    requires n <= |images|
  {
    if n == 0 then 0 else Before(images, n - 1) + |images[n - 1].conf|
  }

  lemma {:induction false} RowsOfAre(im: Image, iouv: seq<real>, sorter: seq<Match> -> seq<Match>, n: nat)
    requires im.Valid() && n <= |im.conf|
    ensures |RowsOf(im, iouv, sorter, n)| == n
    ensures forall d :: 0 <= d < n ==>
              RowsOf(im, iouv, sorter, n)[d] == Prediction(MarksOf(im.sc, iouv, sorter, d), im.conf[d], im.sc.detCls[d])
  {
    if n > 0 { RowsOfAre(im, iouv, sorter, n - 1); }
  }

  lemma {:induction false} BeforePrefix(images: seq<Image>, n: nat, m: nat)
    requires n <= m <= |images|
    ensures Before(images[..m], n) == Before(images, n)
  {
    if n > 0 { BeforePrefix(images, n - 1, m); }
  }

  lemma {:induction false} AllRowsCount(images: seq<Image>, iouv: seq<real>, sorter: seq<Match> -> seq<Match>)
    requires forall i :: 0 <= i < |images| ==> images[i].Valid()
    ensures |AllRows(images, iouv, sorter)| == Before(images, |images|)
  {
    if images != [] {
      var n := |images| - 1;
      AllRowsCount(images[..n], iouv, sorter);
      BeforePrefix(images, n, n);
      RowsOfAre(images[n], iouv, sorter, |images[n].conf|);
    }
  }

  /** Every detection of every image has its row, in order: its confidence, its class, and a mark for each threshold
      at which it is a match. */
  lemma {:induction false} AllRowsAre(images: seq<Image>, iouv: seq<real>, sorter: seq<Match> -> seq<Match>, i: nat,
                                      d: nat)
    requires (forall i :: 0 <= i < |images| ==> images[i].Valid()) && i < |images| && d < |images[i].conf|
    ensures Before(images, i) + d < |AllRows(images, iouv, sorter)| == Before(images, |images|)
    ensures var p := AllRows(images, iouv, sorter)[Before(images, i) + d];
            && p.conf == images[i].conf[d] && p.cls == images[i].sc.detCls[d] && |p.tp| == |iouv|
            && forall j :: 0 <= j < |iouv| ==> p.tp[j] == Correct(MatchesAt(images[i].sc, iouv[j], sorter), d)
  {
    var n := |images| - 1;
    AllRowsCount(images, iouv, sorter);
    AllRowsCount(images[..n], iouv, sorter);
    BeforePrefix(images, n, n);
    if i == n {
      LastRows(images, iouv, sorter, d);
    } else {
      AllRowsAre(images[..n], iouv, sorter, i, d);
      BeforePrefix(images, i, n);
      BeforeGrows(images, i + 1, n);
    }
  }

  lemma LastRows(images: seq<Image>, iouv: seq<real>, sorter: seq<Match> -> seq<Match>, d: nat)
    requires images != [] && (forall i :: 0 <= i < |images| ==> images[i].Valid())
    requires d < |images[|images| - 1].conf|
    requires |AllRows(images[..|images| - 1], iouv, sorter)| == Before(images, |images| - 1)
    ensures var im, rows := images[|images| - 1], AllRows(images, iouv, sorter);
            && Before(images, |images| - 1) + d < |rows|
            && rows[Before(images, |images| - 1) + d] ==
               Prediction(MarksOf(im.sc, iouv, sorter, d), im.conf[d], im.sc.detCls[d])
  {
    RowsOfAre(images[|images| - 1], iouv, sorter, |images[|images| - 1].conf|);
  }

  lemma {:induction false} BeforeGrows(images: seq<Image>, n: nat, m: nat)
    requires n <= m <= |images|
    ensures Before(images, n) <= Before(images, m)
  {
    if n < m { BeforeGrows(images, n, m - 1); }
  }

  /** The targets are the labels of all images, in order. */
  lemma {:induction false} AllTargetsAre(images: seq<Image>, c: nat)
    ensures c in AllTargets(images) <==> exists i :: 0 <= i < |images| && c in images[i].sc.gtCls
    ensures images != [] ==> multiset(AllTargets(images)) ==
                             multiset(AllTargets(images[..|images| - 1])) + multiset(images[|images| - 1].sc.gtCls)
  {
    if images != [] {
      var front, last := images[..|images| - 1], images[|images| - 1];
      AllTargetsAre(front, c);
      assert forall i :: 0 <= i < |front| ==> front[i] == images[i];
      assert c in last.sc.gtCls ==> c in images[|images| - 1].sc.gtCls;
    }
  }

  lemma {:induction false} RowsColumns(im: Image, iouv: seq<real>, sorter: seq<Match> -> seq<Match>, n: nat)
    requires im.Valid() && n <= |im.conf|
    ensures Columns(RowsOf(im, iouv, sorter, n), |iouv|)
  {
    if n > 0 { RowsColumns(im, iouv, sorter, n - 1); }
  }

  lemma {:induction false} AllColumns(images: seq<Image>, iouv: seq<real>, sorter: seq<Match> -> seq<Match>)
    requires forall i :: 0 <= i < |images| ==> images[i].Valid()
    ensures Columns(AllRows(images, iouv, sorter), |iouv|)
  {
    if images != [] {
      var last := images[|images| - 1];
      AllColumns(images[..|images| - 1], iouv, sorter);
      RowsColumns(last, iouv, sorter, |last.conf|);
    }
  }

  /** The positives of an image below detection `n`. */
  function PositivesBelow(sc: Scene, thres: real, sorter: seq<Match> -> seq<Match>, c: nat, n: nat): set<nat>
    requires sc.Valid()
  {
    set d: nat | d < |sc.detCls| && d < n && sc.detCls[d] == c && Correct(MatchesAt(sc, thres, sorter), d)
  }

  lemma NextHit(im: Image, iouv: seq<real>, sorter: seq<Match> -> seq<Match>, c: nat, j: nat, n: nat)
    requires im.Valid() && n < |im.conf| && j < |iouv|
    ensures Hits(RowsOf(im, iouv, sorter, n + 1), c, j) == Hits(RowsOf(im, iouv, sorter, n), c, j) +
            if im.sc.detCls[n] == c && Correct(MatchesAt(im.sc, iouv[j], sorter), n) then 1 else 0
  {
    var rows, before := RowsOf(im, iouv, sorter, n + 1), RowsOf(im, iouv, sorter, n);
    assert rows[..|rows| - 1] == before;
  }

  lemma NextPositive(sc: Scene, thres: real, sorter: seq<Match> -> seq<Match>, c: nat, n: nat)
    requires sc.Valid() && n < |sc.detCls|
    ensures |PositivesBelow(sc, thres, sorter, c, n + 1)| == |PositivesBelow(sc, thres, sorter, c, n)| +
            if sc.detCls[n] == c && Correct(MatchesAt(sc, thres, sorter), n) then 1 else 0
  {
    var p := PositivesBelow(sc, thres, sorter, c, n);
    if sc.detCls[n] == c && Correct(MatchesAt(sc, thres, sorter), n) {
      assert PositivesBelow(sc, thres, sorter, c, n + 1) == p + {n};
    } else {
      assert PositivesBelow(sc, thres, sorter, c, n + 1) == p;
    }
  }

  lemma NoneBelow(sc: Scene, thres: real, sorter: seq<Match> -> seq<Match>, c: nat)
    requires sc.Valid()
    ensures PositivesBelow(sc, thres, sorter, c, 0) == {}
  {
  }

  lemma {:induction false} HitsBelow(im: Image, iouv: seq<real>, sorter: seq<Match> -> seq<Match>, c: nat, j: nat,
                                     n: nat)
    requires im.Valid() && n <= |im.conf| && j < |iouv|
    ensures Hits(RowsOf(im, iouv, sorter, n), c, j) == |PositivesBelow(im.sc, iouv[j], sorter, c, n)|
  {
    if n == 0 {
      NoneBelow(im.sc, iouv[j], sorter, c);
    } else {
      HitsBelow(im, iouv, sorter, c, j, n - 1);
      HitsNext(im, iouv, sorter, c, j, n - 1);
    }
  }

  lemma HitsNext(im: Image, iouv: seq<real>, sorter: seq<Match> -> seq<Match>, c: nat, j: nat, n: nat)
    requires im.Valid() && n < |im.conf| && j < |iouv|
    requires Hits(RowsOf(im, iouv, sorter, n), c, j) == |PositivesBelow(im.sc, iouv[j], sorter, c, n)|
    ensures Hits(RowsOf(im, iouv, sorter, n + 1), c, j) == |PositivesBelow(im.sc, iouv[j], sorter, c, n + 1)|
  {
    NextHit(im, iouv, sorter, c, j, n);
    NextPositive(im.sc, iouv[j], sorter, c, n);
  }

  lemma {:induction false} IndicesCounted(cls: seq<nat>, c: nat)
    ensures |IndicesOf(cls, c)| == multiset(cls)[c]
  {
    if cls != [] {
      var front := cls[..|cls| - 1];
      IndicesCounted(front, c);
      IndicesFrom(front, c, |cls| - 1);
      assert cls == front + [cls[|cls| - 1]];
    }
  }

  /** Over the whole data set a class has no more true positives than targets. */
  lemma {:induction false} HitsAtMostTargets(images: seq<Image>, iouv: seq<real>, sorter: seq<Match> -> seq<Match>,
                                             c: nat, j: nat)
    requires (forall i :: 0 <= i < |images| ==> images[i].Valid()) && IsSorter(sorter) && j < |iouv|
    ensures Hits(AllRows(images, iouv, sorter), c, j) <= multiset(AllTargets(images))[c]
  {
    if images != [] {
      var front, last := images[..|images| - 1], images[|images| - 1];
      HitsAtMostTargets(front, iouv, sorter, c, j);
      HitsConcat(AllRows(front, iouv, sorter), RowsOf(last, iouv, sorter, |last.conf|), c, j);
      HitsBelow(last, iouv, sorter, c, j, |last.conf|);
      assert PositivesBelow(last.sc, iouv[j], sorter, c, |last.conf|) == Positives(last.sc, iouv[j], sorter, c);
      PositivesAtMostLabels(last.sc, iouv[j], sorter, c);
      IndicesCounted(last.sc.gtCls, c);
    }
  }

  /** Every class and threshold of every data set scores between 0 and 0.995, and 0.995 exactly when the
      class's ranking finds more than 99% of its targets before its first false positive (or exactly 99%
      and nothing else). */
  lemma ScoresAreBounded(images: seq<Image>, iouv: seq<real>, sorter: seq<Match> -> seq<Match>,
                         ranker: seq<Prediction> -> seq<Prediction>, c: nat, j: nat, eps: Epsilon)
    requires (forall i :: 0 <= i < |images| ==> images[i].Valid()) && IsSorter(sorter) && IsRanker(ranker)
    requires j < |iouv| && c in AllTargets(images)
    ensures var ranked, targets := ranker(AllRows(images, iouv, sorter)), AllTargets(images);
            && Columns(ranked, |iouv|)
            && 0.0 <= ScoreOf(ranked, targets, c, j, eps) <= 0.995
            && (ScoreOf(ranked, targets, c, j, eps) == 0.995 <==>
                RanksCleanly(FlagsOf(ranked, c, j), multiset(targets)[c], eps))
  {
    var rows, targets := AllRows(images, iouv, sorter), AllTargets(images);
    var ranked := ranker(rows);
    AllColumns(images, iouv, sorter);
    RankedColumns(ranker, rows, |iouv|);
    HitsAtMostTargets(images, iouv, sorter, c, j);
    HitsPermuted(ranked, rows, c, j);
    HitsAreTrues(ranked, c, j);
    var counts: multiset<nat> := multiset(targets);
    var nl := counts[c];
    assert nl > 0 by { assert c in counts; }
    ClassScore(FlagsOf(ranked, c, j), nl, eps);
  }
}
