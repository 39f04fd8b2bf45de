/** The layer-graph planner and interpreter of the detector (yolov5/models/yolo.py): `parse_model`
    decides which outputs to keep and counts channels, `_forward_once` runs the layers keeping only
    those outputs.  The layers themselves are an arbitrary function of layer index and input. */
module LayerGraph {
  import opened Messages

  /** Where a layer reads from; -1 is the previous layer. */
  datatype From = One(index: int) | Many(indices: seq<int>)

  datatype Input<+T> = Single(x: T) | List(xs: seq<T>)

  /** How a computation on Python lists ends.  `Discarded` is a read of an output that was not kept. */
  datatype Outcome<+T> = Value(value: T) | IndexError | Discarded

  function Indices(f: From): seq<int> {
    match f
    case One(j) => [j]
    case Many(js) => js
  }

  /** Python's `len`-relative index, when it is in range. */
  predicate InRange(j: int, len: int) {
    -len <= j < len
  }

  function At(j: int, len: nat): (k: nat)
    requires InRange(j, len)
    ensures k < len
  {
    if j < 0 then len + j else j
  }

  // ---- Keeping every output ----

  /** The input of a layer, from all outputs so far and the running value. */
  function GatherAll<T>(outs: seq<T>, x: T, js: seq<int>): Outcome<seq<T>> {
    if js == [] then Value([])
    else if js[0] != -1 && !InRange(js[0], |outs|) then IndexError
    else
      var first := if js[0] == -1 then x else outs[At(js[0], |outs|)];
      match GatherAll(outs, x, js[1..])
      case Value(rest) => Value([first] + rest)
      case e => e
  }

  function ReadAll<T>(outs: seq<T>, x: T, f: From): Outcome<Input<T>> {
    match f
    case One(j) =>
      if j == -1 then Value(Single(x))
      else if !InRange(j, |outs|) then IndexError
      else Value(Single(outs[At(j, |outs|)]))
    case Many(js) =>
      match GatherAll(outs, x, js)
      case Value(xs) => Value(List(xs))
      case IndexError => IndexError
      case Discarded => Discarded
  }

  function Current<T>(outs: seq<T>, x0: T): T {
    if outs == [] then x0 else outs[|outs| - 1]
  }

  /** All outputs of the first `n` layers. */
  function Outputs<T>(froms: seq<From>, m: (nat, Input<T>) -> T, x0: T, n: nat): Outcome<seq<T>>
    requires n <= |froms|
  {
    if n == 0 then Value([])
    else
      match Outputs(froms, m, x0, n - 1)
      case Value(outs) =>
        (match ReadAll(outs, Current(outs, x0), froms[n - 1])
         case Value(input) => Value(outs + [m(n - 1, input)])
         case IndexError => IndexError
         case Discarded => Discarded)
      case e => e
  }

  /** What the network computes. */
  function Full<T>(froms: seq<From>, m: (nat, Input<T>) -> T, x0: T): Outcome<T> {
    match Outputs(froms, m, x0, |froms|)
    case Value(outs) => Value(Current(outs, x0))
    case IndexError => IndexError
    case Discarded => Discarded
  }

  // ---- Keeping only saved outputs ----

  function Get<T>(y: seq<Option<T>>, j: int): Outcome<T> {
    if !InRange(j, |y|) then IndexError
    else match y[At(j, |y|)]
         case Some(v) => Value(v)
         case None => Discarded
  }

  function Gather<T>(y: seq<Option<T>>, x: T, js: seq<int>): Outcome<seq<T>> {
    if js == [] then Value([])
    else
      match (if js[0] == -1 then Value(x) else Get(y, js[0]))
      case Value(first) =>
        (match Gather(y, x, js[1..])
         case Value(rest) => Value([first] + rest)
         case e => e)
      case IndexError => IndexError
      case Discarded => Discarded
  }

  function Read<T>(y: seq<Option<T>>, x: T, f: From): Outcome<Input<T>> {
    match f
    case One(j) =>
      (match (if j == -1 then Value(x) else Get(y, j))
       case Value(v) => Value(Single(v))
       case IndexError => IndexError
       case Discarded => Discarded)
    case Many(js) =>
      match Gather(y, x, js)
      case Value(xs) => Value(List(xs))
      case IndexError => IndexError
      case Discarded => Discarded
  }

  /** The kept outputs and the running value after `n` layers. */
  function Kept<T>(froms: seq<From>, save: seq<int>, m: (nat, Input<T>) -> T, x0: T,
                   n: nat): (r: Outcome<(seq<Option<T>>, T)>)
    requires n <= |froms|
    ensures r.Value? ==> |r.value.0| == n
  {
    if n == 0 then Value(([], x0))
    else
      match Kept(froms, save, m, x0, n - 1)
      case Value((y, x)) =>
        (match Read(y, x, froms[n - 1])
         case Value(input) =>
           var x' := m(n - 1, input);
           Value((y + [if n - 1 in save then Some(x') else None], x'))
         case IndexError => IndexError
         case Discarded => Discarded)
      case e => e
  }

  /** `_forward_once` as a function. */
  function Pruned<T>(froms: seq<From>, save: seq<int>, m: (nat, Input<T>) -> T, x0: T): Outcome<T> {
    match Kept(froms, save, m, x0, |froms|)
    case Value((_, x)) => Value(x)
    case IndexError => IndexError
    case Discarded => Discarded
  }

  lemma {:induction false} KeptError<T>(froms: seq<From>, save: seq<int>, m: (nat, Input<T>) -> T, x0: T, k: nat,
                                        n: nat)
    requires k <= n <= |froms| && !Kept(froms, save, m, x0, k).Value?
    ensures Kept(froms, save, m, x0, n) == Kept(froms, save, m, x0, k)
  {
    if k < n {
      KeptError(froms, save, m, x0, k, n - 1);
    }
  }

  method ForwardOnce<T>(froms: seq<From>, save: seq<int>, m: (nat, Input<T>) -> T, x0: T) returns (r: Outcome<T>)
    ensures r == Pruned(froms, save, m, x0)
  {
    var y: seq<Option<T>>, x := [], x0;
    var i := 0;
    while i < |froms|
      invariant 0 <= i <= |froms|
      invariant Kept(froms, save, m, x0, i) == Value((y, x))
    {
      var input := Single(x);
      if froms[i] != One(-1) {
        match Read(y, x, froms[i]) {
          case Value(v) => input := v;
          case IndexError =>
            KeptError(froms, save, m, x0, i + 1, |froms|);
            return IndexError;
          case Discarded =>
            KeptError(froms, save, m, x0, i + 1, |froms|);
            return Discarded;
        }
      }
      x := m(i, input);
      y := y + [if i in save then Some(x) else None];
      i := i + 1;
    }
    r := Value(x);
  }

  // ---- The planner's save list ----

  /** The entries layer `i` adds to the save list; `x % 0` fails. */
  function SavedBy(js: seq<int>, i: nat): Option<seq<int>> {
    if js == [] then Some([])
    else if js[0] == -1 then SavedBy(js[1..], i)
    else if i == 0 then None
    else match SavedBy(js[1..], i)
         case Some(rest) => Some([js[0] % i] + rest)
         case None => None
  }

  /** The save list of the first `n` layers (in the order built; only membership is used). */
  function SaveList(froms: seq<From>, n: nat): Option<seq<int>>
    requires n <= |froms|
  {
    if n == 0 then Some([])
    else match SaveList(froms, n - 1)
         case Some(before) =>
           (match SavedBy(Indices(froms[n - 1]), n - 1)
            case Some(more) => Some(before + more)
            case None => None)
         case None => None
  }

  /** Does layer `i` read the output of layer `j`? */
  predicate Reads(froms: seq<From>, i: nat, j: nat)
    requires i < |froms|
  {
    exists x :: x in Indices(froms[i]) && x != -1 && InRange(x, i) && At(x, i) == j
  }

  /** Does `save` hold every output that some layer among the first `n` reads? */
  ghost predicate Covers(froms: seq<From>, save: seq<int>, n: nat)
    requires n <= |froms|
  {
    forall i: nat, j: nat :: i < n && Reads(froms, i, j) ==> j in save
  }

  lemma {:induction false} SavedByCovers(js: seq<int>, i: nat, x: int)
    requires SavedBy(js, i).Some? && x in js && x != -1
    ensures i > 0 && x % i in SavedBy(js, i).value
  {
    if js[0] != x {
      SavedByCovers(js[1..], i, x);
    }
  }

  lemma ModIsAt(x: int, i: nat)
    requires i > 0 && InRange(x, i)
    ensures x % i == At(x, i)
  {
    if x < 0 {
      assert x % i == (x + i) % i;
    }
  }

  /** The list built with `x % i` holds every output that is read. */
  lemma {:induction false} SaveListCovers(froms: seq<From>, n: nat)
    requires n <= |froms| && SaveList(froms, n).Some?
    ensures Covers(froms, SaveList(froms, n).value, n)
  {
    if n > 0 {
      SaveListCovers(froms, n - 1);
      var save := SaveList(froms, n).value;
      forall i: nat, j: nat | i < n && Reads(froms, i, j)
        ensures j in save
      {
        if i == n - 1 {
          var x :| x in Indices(froms[i]) && x != -1 && InRange(x, i) && At(x, i) == j;
          SavedByCovers(Indices(froms[i]), i, x);
          ModIsAt(x, i);
        }
      }
    }
  }

  // ---- Pruned equals full ----

  /** `y` keeps of `outs` what `save` says. */
  predicate Agrees<T(==)>(y: seq<Option<T>>, outs: seq<T>, save: seq<int>) {
    |y| == |outs| && forall j :: 0 <= j < |y| ==> y[j] == if j in save then Some(outs[j]) else None
  }

  predicate AllSaved(js: seq<int>, len: nat, save: seq<int>) {
    forall x :: x in js && x != -1 && InRange(x, len) ==> At(x, len) in save
  }

  lemma {:induction false} GatherAgrees<T>(y: seq<Option<T>>, outs: seq<T>, save: seq<int>, x: T, js: seq<int>)
    requires Agrees(y, outs, save) && AllSaved(js, |outs|, save)
    ensures Gather(y, x, js) == GatherAll(outs, x, js)
  {
    if js != [] {
      assert js[0] in js;
      assert forall z :: z in js[1..] ==> z in js;
      GatherAgrees(y, outs, save, x, js[1..]);
    }
  }

  lemma ReadAgrees<T>(y: seq<Option<T>>, outs: seq<T>, save: seq<int>, x: T, f: From)
    requires Agrees(y, outs, save) && AllSaved(Indices(f), |outs|, save)
    ensures Read(y, x, f) == ReadAll(outs, x, f)
  {
    if f.Many? {
      GatherAgrees(y, outs, save, x, f.indices);
    } else {
      assert f.index in Indices(f);
    }
  }

  lemma {:induction false} KeptAgrees<T>(froms: seq<From>, save: seq<int>, m: (nat, Input<T>) -> T, x0: T, n: nat)
    requires n <= |froms| && Covers(froms, save, n)
    ensures match Outputs(froms, m, x0, n)
            case Value(outs) => Kept(froms, save, m, x0, n).Value?
                                && Agrees(Kept(froms, save, m, x0, n).value.0, outs, save)
                                && Kept(froms, save, m, x0, n).value.1 == Current(outs, x0) && |outs| == n
            case IndexError => Kept(froms, save, m, x0, n) == IndexError
            case Discarded => false
  {
    if n > 0 {
      KeptAgrees(froms, save, m, x0, n - 1);
      if Outputs(froms, m, x0, n - 1).Value? {
        var outs := Outputs(froms, m, x0, n - 1).value;
        var (y, x) := Kept(froms, save, m, x0, n - 1).value;
        assert AllSaved(Indices(froms[n - 1]), |outs|, save) by {
          forall z | z in Indices(froms[n - 1]) && z != -1 && InRange(z, |outs|)
            ensures At(z, |outs|) in save
          {
            assert Reads(froms, n - 1, At(z, |outs|));
          }
        }
        ReadAgrees(y, outs, save, x, froms[n - 1]);
        ReadAllNeverDiscards(outs, x, froms[n - 1]);
      }
    }
  }

  lemma {:induction false} GatherAllNeverDiscards<T>(outs: seq<T>, x: T, js: seq<int>)
    ensures !GatherAll(outs, x, js).Discarded?
  {
    if js != [] {
      GatherAllNeverDiscards(outs, x, js[1..]);
    }
  }

  lemma ReadAllNeverDiscards<T>(outs: seq<T>, x: T, f: From)
    ensures !ReadAll(outs, x, f).Discarded?
  {
    if f.Many? {
      GatherAllNeverDiscards(outs, x, f.indices);
    }
  }

  /** For every layer list the planner accepts, every layers and every image: keeping only the planned
      outputs computes what keeping them all does, index errors included, and no discarded output is
      read. */
  lemma PrunedEqualsFull<T>(froms: seq<From>, m: (nat, Input<T>) -> T, x0: T)
    requires SaveList(froms, |froms|).Some?
    ensures Pruned(froms, SaveList(froms, |froms|).value, m, x0) == Full(froms, m, x0)
    ensures !Full(froms, m, x0).Discarded?
  {
    SaveListCovers(froms, |froms|);
    KeptAgrees(froms, SaveList(froms, |froms|).value, m, x0, |froms|);
  }

  // ---- No smaller list would do ----

  predicate ValidFroms(froms: seq<From>, n: nat)
    requires n <= |froms|
  {
    forall i, x :: 0 <= i < n && x in Indices(froms[i]) ==> x == -1 || InRange(x, i)
  }

  lemma {:induction false} GatherDiscards<T>(y: seq<Option<T>>, outs: seq<T>, save: seq<int>, x: T, js: seq<int>)
    requires Agrees(y, outs, save) && !AllSaved(js, |outs|, save)
    requires forall z :: z in js ==> z == -1 || InRange(z, |outs|)
    ensures Gather(y, x, js) == Discarded
  {
    assert js[0] in js;
    if js[0] == -1 || At(js[0], |outs|) in save {
      assert forall z :: z in js <==> z == js[0] || z in js[1..];
      GatherDiscards(y, outs, save, x, js[1..]);
    }
  }

  lemma ReadDiscards<T>(y: seq<Option<T>>, outs: seq<T>, save: seq<int>, x: T, f: From)
    requires Agrees(y, outs, save) && !AllSaved(Indices(f), |outs|, save)
    requires forall z :: z in Indices(f) ==> z == -1 || InRange(z, |outs|)
    ensures Read(y, x, f) == Discarded
  {
    if f.Many? {
      GatherDiscards(y, outs, save, x, f.indices);
    } else {
      assert f.index in Indices(f);
    }
  }

  lemma {:induction false} KeptDiscards<T>(froms: seq<From>, save: seq<int>, m: (nat, Input<T>) -> T, x0: T, n: nat)
    requires n <= |froms| && ValidFroms(froms, n) && !Covers(froms, save, n)
    ensures Kept(froms, save, m, x0, n) == Discarded
  {
    var i: nat, j: nat :| i < n && Reads(froms, i, j) && j !in save;
    if !Covers(froms, save, n - 1) {
      KeptDiscards(froms, save, m, x0, n - 1);
    } else {
      assert i == n - 1;
      KeptAgrees(froms, save, m, x0, n - 1);
      ValidNeverErrs(froms, m, x0, n - 1);
      var outs := Outputs(froms, m, x0, n - 1).value;
      var (y, x) := Kept(froms, save, m, x0, n - 1).value;
      var z :| z in Indices(froms[i]) && z != -1 && InRange(z, i) && At(z, i) == j;
      assert !AllSaved(Indices(froms[i]), |outs|, save);
      ReadDiscards(y, outs, save, x, froms[i]);
    }
  }

  lemma {:induction false} GatherAllValid<T>(outs: seq<T>, x: T, js: seq<int>)
    requires forall z :: z in js ==> z == -1 || InRange(z, |outs|)
    ensures GatherAll(outs, x, js).Value?
  {
    if js != [] {
      assert js[0] in js;
      GatherAllValid(outs, x, js[1..]);
    }
  }

  lemma {:induction false} ValidNeverErrs<T>(froms: seq<From>, m: (nat, Input<T>) -> T, x0: T, n: nat)
    requires n <= |froms| && ValidFroms(froms, n)
    ensures Outputs(froms, m, x0, n).Value? && |Outputs(froms, m, x0, n).value| == n
  {
    if n > 0 {
      ValidNeverErrs(froms, m, x0, n - 1);
      var outs := Outputs(froms, m, x0, n - 1).value;
      if froms[n - 1].Many? {
        GatherAllValid(outs, Current(outs, x0), froms[n - 1].indices);
      } else {
        assert froms[n - 1].index in Indices(froms[n - 1]);
      }
    }
  }

  /** Which outputs must be kept, exactly: a save list gives the full result if and only if it holds
      every output that some layer reads. */
  lemma EnoughSavedIffCovers<T>(froms: seq<From>, save: seq<int>, m: (nat, Input<T>) -> T, x0: T)
    requires ValidFroms(froms, |froms|)
    ensures Pruned(froms, save, m, x0) == Full(froms, m, x0) <==> Covers(froms, save, |froms|)
  {
    ValidNeverErrs(froms, m, x0, |froms|);
    if Covers(froms, save, |froms|) {
      KeptAgrees(froms, save, m, x0, |froms|);
    } else {
      KeptDiscards(froms, save, m, x0, |froms|);
    }
  }

  lemma {:induction false} SavedByIsRead(js: seq<int>, i: nat, j: int)
    requires SavedBy(js, i).Some? && j in SavedBy(js, i).value
    requires forall z :: z in js ==> z == -1 || InRange(z, i)
    ensures exists x :: x in js && x != -1 && InRange(x, i) && At(x, i) == j
  {
    assert js[0] in js;
    if js[0] != -1 && j == js[0] % i {
      ModIsAt(js[0], i);
    } else {
      SavedByIsRead(js[1..], i, j);
      var x :| x in js[1..] && x != -1 && InRange(x, i) && At(x, i) == j;
      assert x in js;
    }
  }

  /** The planner accepts valid lists, and what it keeps is read by some layer. */
  lemma {:induction false} SaveListIsRead(froms: seq<From>, n: nat, j: int)
    requires n <= |froms| && ValidFroms(froms, n)
    ensures SaveList(froms, n).Some?
    ensures j in SaveList(froms, n).value ==> exists i: nat :: i < n && 0 <= j && Reads(froms, i, j)
  {
    if n > 0 {
      SaveListIsRead(froms, n - 1, j);
      SavedByValid(Indices(froms[n - 1]), n - 1);
      if j in SavedBy(Indices(froms[n - 1]), n - 1).value {
        SavedByIsRead(Indices(froms[n - 1]), n - 1, j);
        assert Reads(froms, n - 1, j);
      }
    }
  }

  lemma {:induction false} SavedByValid(js: seq<int>, i: nat)
    requires forall z :: z in js ==> z == -1 || InRange(z, i)
    ensures SavedBy(js, i).Some?
  {
    if js != [] {
      assert js[0] in js;
      SavedByValid(js[1..], i);
    }
  }
}
