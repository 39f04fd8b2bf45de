/** Client_RegisterVehicle, CARLA_UPDATE, with its atomic steps apart (ecloud_server.cc): the report is stored
    under the lock; the load of the counter and the test come after it.  One handler for each car. */
module SplitRegister {
  import opened Messages
  import opened IndexSets
  import opened EcloudServer
  import opened PushQueue
  import opened Schedules
  import Reports
  import SplitUpdate

  /** `Aborted` is a failed assertion, which ends the server. */
  datatype Pc = Entered | Stored | Loaded(replies: int) | Left | Aborted

  datatype State = State(server: Server, pc: seq<Pc>, pushers: seq<nat>, drained: bool)

  /** `Drain` is the orchestrator, which fetches the reports once it was told of the completion. */
  datatype Move = Store(h: nat) | Load(h: nat) | Test(h: nat) | Drain

  /** Before the first report. */
  predicate Unreported(s: Server) {
    s.Valid() && s.numCars > 0 && s.numReplied == 0 && s.pending == []
  }

  function Begin(s: Server): State
    requires Unreported(s)
  {
    State(s, seq(s.numCars, _ => Entered), [], false)
  }

  predicate CanMove(x: State, m: Move) {
    (forall h :: 0 <= h < |x.pc| ==> x.pc[h] != Aborted) &&
    match m
    case Store(h) => h < |x.pc| && x.pc[h] == Entered
    case Load(h) => h < |x.pc| && x.pc[h] == Stored
    case Test(h) => h < |x.pc| && x.pc[h].Loaded?
    case Drain => x.pushers != [] && !x.drained
  }

  function Next(x: State, m: Move): State
    requires CanMove(x, m)
  {
    match m
    case Store(h) => x.(server := CarlaUpdate(x.server, h), pc := x.pc[h := Stored])
    case Load(h) => x.(pc := x.pc[h := Loaded(x.server.numReplied)])
    case Test(h) =>
      if x.pc[h].replies != x.server.numCars then x.(pc := x.pc[h := Left])
      else if x.pc[h].replies != |x.server.pending| then x.(pc := x.pc[h := Aborted])
      else x.(pc := x.pc[h := Left], pushers := x.pushers + [h])
    case Drain => x.(server := GetUpdates(x.server).0, drained := true)
  }

  /** A failed assertion ends the server: no handler gets any further, nor is the queue drained. */
  lemma AbortIsFinal(x: State, h: nat, m: Move)
    requires h < |x.pc| && x.pc[h] == Aborted
    ensures !CanMove(x, m)
  {
    assert x.pc[h] == Aborted;
  }

  predicate Legal(s: Server, moves: seq<Move>)
    requires Unreported(s)
    decreases |moves|, 0
  {
    moves == [] || (Legal(s, moves[..|moves| - 1]) && CanMove(After(s, moves[..|moves| - 1]), moves[|moves| - 1]))
  }

  function After(s: Server, moves: seq<Move>): State
    requires Unreported(s) && Legal(s, moves)
    decreases |moves|, 1
  {
    if moves == [] then Begin(s) else Next(After(s, moves[..|moves| - 1]), moves[|moves| - 1])
  }

  // ---- The invariant ----

  function StoredSet(pc: seq<Pc>): set<nat> {
    set h: nat | h < |pc| && pc[h] != Entered
  }

  predicate AllStored(pc: seq<Pc>) {
    forall h :: 0 <= h < |pc| ==> pc[h] != Entered
  }

  lemma StoredSize(pc: seq<Pc>)
    ensures |StoredSet(pc)| <= |pc| && (|StoredSet(pc)| == |pc| <==> AllStored(pc))
  {
    SubsetSize(StoredSet(pc), All(|pc|));
    if AllStored(pc) {
      assert StoredSet(pc) == All(|pc|);
    }
    if StoredSet(pc) == All(|pc|) {
      forall h | 0 <= h < |pc|
        ensures pc[h] != Entered
      {
        assert h in All(|pc|);
      }
    }
  }

  /** Until it is drained the queue has one report per reply; the drain comes when all are in, empties a queue
      of at most 33, and resets the counter only then. */
  ghost predicate Counts(s: Server, x: State) {
    && |x.pc| == s.numCars == x.server.numCars && x.server.command == s.command
    && (!x.drained ==> x.server.numReplied == |x.server.pending| == |StoredSet(x.pc)|)
    && (x.drained ==> AllStored(x.pc) && |x.server.pending| < s.numCars
                      && x.server.numReplied == if s.numCars <= Reports.BATCH then 0 else s.numCars)
    && (x.pushers != [] ==> AllStored(x.pc))
  }

  predicate LoadedOk(s: Server, x: State) {
    forall h :: 0 <= h < |x.pc| && x.pc[h] == Loaded(s.numCars) ==> AllStored(x.pc)
  }

  ghost predicate Inv(s: Server, x: State) {
    Counts(s, x) && LoadedOk(s, x)
  }

  lemma NextInv(s: Server, x: State, m: Move)
    requires Unreported(s) && Inv(s, x) && CanMove(x, m)
    ensures Inv(s, Next(x, m))
  {
    StoredSize(x.pc);
    match m {
      case Store(h) =>
        assert StoredSet(x.pc[h := Stored]) == StoredSet(x.pc) + {h};
      case Load(h) =>
        assert StoredSet(x.pc[h := Loaded(x.server.numReplied)]) == StoredSet(x.pc);
      case Test(h) =>
        assert StoredSet(Next(x, m).pc) == StoredSet(x.pc);
      case Drain =>
    }
  }

  lemma {:induction false} AfterInv(s: Server, moves: seq<Move>)
    requires Unreported(s) && Legal(s, moves)
    ensures Inv(s, After(s, moves))
    decreases |moves|
  {
    if moves == [] {
      assert StoredSet(Begin(s).pc) == {};
    } else {
      AfterInv(s, moves[..|moves| - 1]);
      NextInv(s, After(s, moves[..|moves| - 1]), moves[|moves| - 1]);
    }
  }

  // ---- Who pushes, and when the server's assertion fails ----

  /** Handler `h` loads after every report was stored, and not from a counter that the drain has reset. */
  predicate SeesAll(s: Server, moves: seq<Move>, h: nat) {
    && (forall g: nat :: g < s.numCars ==> Before(moves, Store(g), Load(h)))
    && (s.numCars <= Reports.BATCH ==> !Before(moves, Drain, Load(h)))
  }

  lemma SeesAllNext(s: Server, moves: seq<Move>, m: Move, h: nat)
    ensures m != Load(h) ==> (SeesAll(s, moves + [m], h) <==> SeesAll(s, moves, h))
    ensures m == Load(h) && m !in moves ==>
              (SeesAll(s, moves + [m], h) <==>
               && (forall g: nat :: g < s.numCars ==> Store(g) in moves)
               && (s.numCars <= Reports.BATCH ==> Drain !in moves))
  {
    BeforeNext(moves, m, Drain, Load(h));
    forall g: nat
      ensures Before(moves + [m], Store(g), Load(h)) <==>
                Before(moves, Store(g), Load(h)) || (m == Load(h) && Store(g) in moves)
    {
      BeforeNext(moves, m, Store(g), Load(h));
    }
    if m == Load(h) && m !in moves {
      forall a: Move
        ensures !Before(moves, a, Load(h))
      {
      }
    }
  }

  /** What the schedule says of who has stored, and of the drain. */
  predicate StoreTells(x: State, moves: seq<Move>, g: nat) {
    g < |x.pc| && (Store(g) in moves <==> x.pc[g] != Entered) && (Drain in moves <==> x.drained)
  }

  lemma StoreTellsNext(x: State, moves: seq<Move>, g: nat, m: Move)
    requires StoreTells(x, moves, g) && CanMove(x, m)
    ensures StoreTells(Next(x, m), moves + [m], g) && |Next(x, m).pc| == |x.pc|
  {
  }

  lemma {:induction false} StoresInOrder(s: Server, moves: seq<Move>, g: nat)
    requires Unreported(s) && Legal(s, moves) && g < s.numCars
    ensures |After(s, moves).pc| == s.numCars && StoreTells(After(s, moves), moves, g)
    decreases |moves|
  {
    if moves != [] {
      var front, m := moves[..|moves| - 1], moves[|moves| - 1];
      StoresInOrder(s, front, g);
      StoreTellsNext(After(s, front), front, g, m);
      assert moves == front + [m];
    }
  }

  /** What the schedule so far says of handler `h`. */
  predicate Tracks(s: Server, moves: seq<Move>, h: nat, pc: Pc, pushed: bool) {
    match pc
    case Loaded(r) => !pushed && Test(h) !in moves && (r == s.numCars <==> SeesAll(s, moves, h))
    case Left => (pushed <==> SeesAll(s, moves, h)) && (pushed ==> !Before(moves, Drain, Test(h)))
    case Aborted => !pushed && SeesAll(s, moves, h) && Before(moves, Drain, Test(h))
    case _ => !pushed && Load(h) !in moves && Test(h) !in moves
  }

  lemma TracksNext(s: Server, moves: seq<Move>, x: State, m: Move, h: nat)
    requires Inv(s, x) && CanMove(x, m) && h < |x.pc| && Tracks(s, moves, h, x.pc[h], h in x.pushers)
    requires m != Load(h) ==> (SeesAll(s, moves + [m], h) <==> SeesAll(s, moves, h))
    requires m == Load(h) ==> (SeesAll(s, moves + [m], h) <==> x.server.numReplied == s.numCars)
    requires Before(moves + [m], Drain, Test(h)) <==> Before(moves, Drain, Test(h)) || (m == Test(h) && x.drained)
    requires m == Test(h) ==> !Before(moves, Drain, Test(h))
    ensures var x' := Next(x, m); Tracks(s, moves + [m], h, x'.pc[h], h in x'.pushers)
  {
    if m == Test(h) && x.pc[h].replies == s.numCars {
      StoredSize(x.pc);
    }
  }

  /** A load sees the full count exactly when all reports are in and the counter was not reset. */
  lemma LoadSeesFull(s: Server, moves: seq<Move>)
    requires Unreported(s) && Legal(s, moves)
    ensures After(s, moves).server.numReplied == s.numCars <==>
              (forall g: nat :: g < s.numCars ==> Store(g) in moves) && (s.numCars <= Reports.BATCH ==> Drain !in moves)
  {
    var x := After(s, moves);
    AfterInv(s, moves);
    StoredSize(x.pc);
    forall g: nat | g < s.numCars
      ensures Store(g) in moves <==> x.pc[g] != Entered
      ensures Drain in moves <==> x.drained
    {
      StoresInOrder(s, moves, g);
    }
    StoresInOrder(s, moves, 0);
  }

  lemma {:induction false} HandlerTracks(s: Server, moves: seq<Move>, h: nat)
    requires Unreported(s) && Legal(s, moves) && h < s.numCars
    ensures var x := After(s, moves); h < |x.pc| && Tracks(s, moves, h, x.pc[h], h in x.pushers)
    decreases |moves|
  {
    if moves != [] {
      var front, m := moves[..|moves| - 1], moves[|moves| - 1];
      assert moves == front + [m];
      HandlerTracks(s, front, h);
      AfterInv(s, front);
      LoadSeesFull(s, front);
      StoresInOrder(s, front, h);
      SeesAllNext(s, front, m, h);
      BeforeNext(front, m, Drain, Test(h));
      TracksNext(s, front, After(s, front), m, h);
    }
  }

  /** What becomes of a handler, exactly.  It pushes if and only if it loads after every report was stored and
      makes its test before the orchestrator drains the queue; if the drain comes between the two (or, with more
      than 33 cars, before both), the assertion in between fails and the server is gone. */
  lemma PushesOrAborts(s: Server, moves: seq<Move>, h: nat)
    requires Unreported(s) && Legal(s, moves) && h < s.numCars && Test(h) in moves
    ensures var x := After(s, moves);
            && h < |x.pc| && x.pc[h] in {Left, Aborted}
            && (h in x.pushers <==> SeesAll(s, moves, h) && !Before(moves, Drain, Test(h)))
            && (x.pc[h] == Aborted <==> SeesAll(s, moves, h) && Before(moves, Drain, Test(h)))
  {
    HandlerTracks(s, moves, h);
  }

  // ---- What the orchestrator gets to see ----

  function PushesOf(c: Command, pushers: seq<nat>): (r: seq<Tick>)
    ensures |r| == |pushers| && forall i :: 0 <= i < |r| ==> r[i] == Tick(TICK_ID_INVALID, c, INVALID_TIME)
  {
    seq(|pushers|, _ => Tick(TICK_ID_INVALID, c, INVALID_TIME))
  }

  /** All pushes are alike: however many are made, the orchestrator reads one completion. */
  lemma RegistrationSeenOnce(s: Server, moves: seq<Move>)
    requires Unreported(s) && Legal(s, moves) && After(s, moves).pushers != []
    ensures SplitUpdate.Seen(INITIAL, PushesOf(s.command, After(s, moves).pushers)) ==
            [Tick(TICK_ID_INVALID, s.command, INVALID_TIME)]
    ensures forall g :: 0 <= g < s.numCars ==> Store(g) in moves
  {
    var pushes := PushesOf(s.command, After(s, moves).pushers);
    SplitUpdate.OneCompletionIffAlike(INITIAL, pushes);
    var seen := SplitUpdate.Seen(INITIAL, pushes);
    assert seen == seen[..1];
    AfterInv(s, moves);
    forall g | 0 <= g < s.numCars
      ensures Store(g) in moves
    {
      StoresInOrder(s, moves, g);
    }
  }

  predicate StillToPush(s: Server, pc: Pc) {
    pc == Stored || pc == Loaded(s.numCars)
  }

  /** With all reports in and nobody told, some handler is still going to push. */
  ghost predicate SomebodyWill(s: Server, x: State) {
    && (x.drained ==> x.pushers != [])
    && (AllStored(x.pc) && x.pushers == [] ==> exists h :: 0 <= h < |x.pc| && StillToPush(s, x.pc[h]))
  }

  lemma SomebodyNext(s: Server, x: State, m: Move)
    requires Unreported(s) && Inv(s, x) && SomebodyWill(s, x) && CanMove(x, m)
    ensures SomebodyWill(s, Next(x, m))
  {
    StoredSize(x.pc);
    var x' := Next(x, m);
    if AllStored(x'.pc) && x'.pushers == [] {
      if m.Store? {
        assert StillToPush(s, x'.pc[m.h]);
      } else {
        assert |x.pushers| <= |x'.pushers| == 0;
        assert forall h :: 0 <= h < |x.pc| && x'.pc[h] != Entered ==> x.pc[h] != Entered;
        assert AllStored(x.pc) && !x.drained;
        assert x.server.numReplied == |x.server.pending| == s.numCars;
        var h :| 0 <= h < |x.pc| && StillToPush(s, x.pc[h]);
        assert StillToPush(s, x'.pc[h]);
      }
    }
  }

  lemma {:induction false} SomebodyAlways(s: Server, moves: seq<Move>)
    requires Unreported(s) && Legal(s, moves)
    ensures SomebodyWill(s, After(s, moves))
    decreases |moves|
  {
    if moves == [] {
      assert Begin(s).pc[0] == Entered;
    } else {
      AfterInv(s, moves[..|moves| - 1]);
      SomebodyAlways(s, moves[..|moves| - 1]);
      SomebodyNext(s, After(s, moves[..|moves| - 1]), moves[|moves| - 1]);
    }
  }

  /** When every handler is through, somebody has pushed. */
  lemma SomebodyPushed(s: Server, moves: seq<Move>)
    requires Unreported(s) && Legal(s, moves) && forall h: nat :: h < s.numCars ==> Test(h) in moves
    ensures After(s, moves).pushers != []
  {
    var x := After(s, moves);
    SomebodyAlways(s, moves);
    AfterInv(s, moves);
    forall h | 0 <= h < |x.pc|
      ensures x.pc[h] in {Left, Aborted}
    {
      PushesOrAborts(s, moves, h);
    }
  }

  // ---- Runs ----

  lemma Snoc(s: Server, moves: seq<Move>, m: Move)
    requires Unreported(s) && Legal(s, moves) && CanMove(After(s, moves), m)
    ensures Legal(s, moves + [m]) && After(s, moves + [m]) == Next(After(s, moves), m)
  {
    assert (moves + [m])[..|moves|] == moves;
  }

  /** The first `n` handlers have stored, nothing else happened. */
  predicate StoredUpTo(s: Server, x: State, n: nat) {
    && |x.pc| == s.numCars && x.pushers == [] && !x.drained
    && forall h :: 0 <= h < |x.pc| ==> x.pc[h] == if h < n then Stored else Entered
  }

  lemma StoreOne(s: Server, x: State, n: nat)
    requires StoredUpTo(s, x, n) && n < s.numCars
    ensures CanMove(x, Store(n)) && StoredUpTo(s, Next(x, Store(n)), n + 1)
  {
  }

  lemma {:induction false} StoreUpTo(s: Server, n: nat) returns (moves: seq<Move>)
    requires Unreported(s) && n <= s.numCars
    ensures Legal(s, moves) && StoredUpTo(s, After(s, moves), n)
  {
    if n == 0 {
      moves := [];
    } else {
      var before := StoreUpTo(s, n - 1);
      StoreOne(s, After(s, before), n - 1);
      Snoc(s, before, Store(n - 1));
      moves := before + [Store(n - 1)];
    }
  }

  /** Everything is stored and the two handlers have loaded the full count. */
  predicate TwoLoaded(s: Server, x: State) {
    && |x.pc| == s.numCars && s.numCars >= 2 && x.pc[0] == x.pc[1] == Loaded(s.numCars)
    && x.pushers == [] && !x.drained && forall h :: 0 <= h < |x.pc| ==> x.pc[h] != Aborted
  }

  lemma TwoLoad(s: Server) returns (moves: seq<Move>)
    requires Unreported(s) && s.numCars >= 2
    ensures Legal(s, moves) && TwoLoaded(s, After(s, moves))
  {
    moves := StoreUpTo(s, s.numCars);
    AfterInv(s, moves);
    StoredSize(After(s, moves).pc);
    Snoc(s, moves, Load(0));
    moves := moves + [Load(0)];
    Snoc(s, moves, Load(1));
    moves := moves + [Load(1)];
  }

  /** With two cars or more the assertion can fail: one handler pushes, the orchestrator drains, and another that
      had loaded the full count makes its test. */
  lemma RegistrationCanAbort(s: Server) returns (moves: seq<Move>)
    requires Unreported(s) && s.numCars >= 2
    ensures Legal(s, moves) && |After(s, moves).pc| >= 2 && After(s, moves).pc[1] == Aborted
  {
    moves := TwoLoad(s);
    AfterInv(s, moves);
    StoredSize(After(s, moves).pc);
    Snoc(s, moves, Test(0));
    moves := moves + [Test(0)];
    Snoc(s, moves, Drain);
    moves := moves + [Drain];
    AfterInv(s, moves);
    Snoc(s, moves, Test(1));
    moves := moves + [Test(1)];
  }

  /** And two of them can push; the second push meets a full queue, or is dropped (`SplitUpdate.SecondPush`). */
  lemma TwoMayPush(s: Server) returns (moves: seq<Move>)
    requires Unreported(s) && s.numCars >= 2
    ensures Legal(s, moves) && After(s, moves).pushers == [0, 1]
  {
    moves := TwoLoad(s);
    AfterInv(s, moves);
    StoredSize(After(s, moves).pc);
    Snoc(s, moves, Test(0));
    moves := moves + [Test(0)];
    Snoc(s, moves, Test(1));
    moves := moves + [Test(1)];
  }
}
