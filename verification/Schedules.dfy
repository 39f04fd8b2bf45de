/** Orders in which several handlers may take their steps. */
module Schedules {

  /** Does `a` come before `b` in the schedule? */
  predicate Before<M(==)>(moves: seq<M>, a: M, b: M) {
    exists i, j :: 0 <= i < j < |moves| && moves[i] == a && moves[j] == b
  }

  lemma BeforeNext<M>(moves: seq<M>, m: M, a: M, b: M)
    ensures Before(moves + [m], a, b) <==> Before(moves, a, b) || (b == m && a in moves)
  {
    var next := moves + [m];
    if i, j :| 0 <= i < j < |moves| && moves[i] == a && moves[j] == b {
      assert next[i] == a && next[j] == b;
    }
    if b == m && a in moves {
      var i :| 0 <= i < |moves| && moves[i] == a;
      assert next[i] == a && next[|moves|] == b;
    }
    if i, j :| 0 <= i < j < |next| && next[i] == a && next[j] == b {
      assert moves[i] == a && (j < |moves| ==> moves[j] == b);
    }
  }
}
