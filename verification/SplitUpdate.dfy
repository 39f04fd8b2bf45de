/** Client_SendUpdate with its atomic operations apart (ecloud_server.cc): the handlers of one tick
    count their update, load the two counters and test their sum, interleaved in any way.  No handler
    outlives its tick. */
module SplitUpdate {
  import opened Messages
  import opened IndexSets
  import opened EcloudServer
  import opened PushQueue
  import opened Schedules

  datatype Pc = Entered | Counting | HaveReplied(replies: int) | HaveBoth(replies: int, completions: int) | Left

  /** `order` records who counted, in which order; `pushers` who pushed to the orchestrator. */
  datatype State = State(server: Server, pc: seq<Pc>, order: seq<nat>, pushers: seq<nat>)

  datatype Move = Count(h: nat) | LoadReplied(h: nat) | LoadCompleted(h: nat) | Test(h: nat)

  /** One update per handler, each TICK_OK or final; with those counted before they fill the cars. */
  predicate Tickful(s: Server, us: seq<VehicleUpdate>) {
    && s.Valid() && s.numReplied + s.numCompleted + |us| == s.numCars
    && forall h :: 0 <= h < |us| ==>
         us[h].vehicleIndex < MAX_CARS && (us[h].vehicleState == TICK_OK || IsDone(us[h].vehicleState))
  }

  function Begin(s: Server, us: seq<VehicleUpdate>): State {
    State(s, seq(|us|, _ => Entered), [], [])
  }

  predicate CanMove(x: State, m: Move) {
    m.h < |x.pc| &&
    match m
    case Count(h) => x.pc[h] == Entered
    case LoadReplied(h) => x.pc[h] == Counting
    case LoadCompleted(h) => x.pc[h].HaveReplied?
    case Test(h) => x.pc[h].HaveBoth?
  }

  function Next(x: State, us: seq<VehicleUpdate>, m: Move): State
    requires x.server.Valid() && |x.pc| == |us| && CanMove(x, m)
    requires us[m.h].vehicleIndex < MAX_CARS
  {
    match m
    case Count(h) => x.(server := Counted(x.server, us[h]), pc := x.pc[h := Counting], order := x.order + [h])
    case LoadReplied(h) => x.(pc := x.pc[h := HaveReplied(x.server.numReplied)])
    case LoadCompleted(h) => x.(pc := x.pc[h := HaveBoth(x.pc[h].replies, x.server.numCompleted)])
    case Test(h) =>
      x.(pc := x.pc[h := Left],
         pushers := if x.pc[h].replies + x.pc[h].completions == x.server.numCars then x.pushers + [h] else x.pushers)
  }

  function PushOf(us: seq<VehicleUpdate>, c: Command, h: nat): Tick
    requires h < |us|
  {
    Tick(us[h].tickId, c, us[h].durationNs)
  }

  predicate Handlers(us: seq<VehicleUpdate>, order: seq<nat>) {
    forall i :: 0 <= i < |order| ==> order[i] < |us| && us[order[i]].vehicleIndex < MAX_CARS
  }

  /** The same handlers run whole, one after another in the given order. */
  function Atomically(s: Server, us: seq<VehicleUpdate>, order: seq<nat>): (r: (Server, seq<Tick>))
    requires s.Valid() && Handlers(us, order)
    ensures r.0.Valid()
  {
    if order == [] then (s, [])
    else
      var (before, pushes) := Atomically(s, us, order[..|order| - 1]);
      var (after, push) := SendUpdate(before, us[order[|order| - 1]]);
      (after, if push.Some? then pushes + [push.value] else pushes)
  }

  // ---- What is counted ----

  /** The handlers in `order` with a TICK_OK update, and with a final one. */
  function OkSet(us: seq<VehicleUpdate>, order: seq<nat>): set<nat> {
    set g: nat | g < |us| && g in order && us[g].vehicleState == TICK_OK
  }

  function FinalSet(us: seq<VehicleUpdate>, order: seq<nat>): set<nat> {
    set g: nat | g < |us| && g in order && us[g].vehicleState != TICK_OK
  }

  function AllOk(us: seq<VehicleUpdate>): set<nat> {
    set g: nat | g < |us| && us[g].vehicleState == TICK_OK
  }

  function AllFinal(us: seq<VehicleUpdate>): set<nat> {
    set g: nat | g < |us| && us[g].vehicleState != TICK_OK
  }

  /** The counters once everyone has counted. */
  function FullReplied(s: Server, us: seq<VehicleUpdate>): int { s.numReplied + |AllOk(us)| }
  function FullCompleted(s: Server, us: seq<VehicleUpdate>): int { s.numCompleted + |AllFinal(us)| }

  lemma {:induction false} CountersAre(s: Server, us: seq<VehicleUpdate>, order: seq<nat>)
    requires Tickful(s, us) && Handlers(us, order) && Distinct(order)
    ensures var server := Atomically(s, us, order).0;
            && server.numReplied == s.numReplied + |OkSet(us, order)|
            && server.numCompleted == s.numCompleted + |FinalSet(us, order)|
            && server.numCars == s.numCars && server.command == s.command
  {
    if order == [] {
      assert OkSet(us, order) == {} && FinalSet(us, order) == {};
    } else {
      var front, h := order[..|order| - 1], order[|order| - 1];
      CountersAre(s, us, front);
      assert order == front + [h];
      SetsNext(us, front, h);
    }
  }

  lemma SetsNext(us: seq<VehicleUpdate>, front: seq<nat>, h: nat)
    requires h < |us| && h !in front
    ensures |OkSet(us, front + [h])| == |OkSet(us, front)| + if us[h].vehicleState == TICK_OK then 1 else 0
    ensures |FinalSet(us, front + [h])| == |FinalSet(us, front)| + if us[h].vehicleState == TICK_OK then 0 else 1
  {
    if us[h].vehicleState == TICK_OK {
      assert OkSet(us, front + [h]) == OkSet(us, front) + {h} && FinalSet(us, front + [h]) == FinalSet(us, front);
    } else {
      assert FinalSet(us, front + [h]) == FinalSet(us, front) + {h} && OkSet(us, front + [h]) == OkSet(us, front);
    }
  }

  lemma FullIsCars(s: Server, us: seq<VehicleUpdate>)
    requires Tickful(s, us)
    ensures FullReplied(s, us) + FullCompleted(s, us) == s.numCars
  {
    assert AllOk(us) + AllFinal(us) == All(|us|);
  }

  /** A counter is full exactly when every update of its kind has been counted. */
  lemma FullWhenAllIn(s: Server, us: seq<VehicleUpdate>, order: seq<nat>)
    requires Tickful(s, us) && Handlers(us, order) && Distinct(order)
    ensures var server := Atomically(s, us, order).0;
            && server.numReplied <= FullReplied(s, us) && server.numCompleted <= FullCompleted(s, us)
            && (server.numReplied == FullReplied(s, us) <==> AllOk(us) <= OkSet(us, order))
            && (server.numCompleted == FullCompleted(s, us) <==> AllFinal(us) <= FinalSet(us, order))
  {
    CountersAre(s, us, order);
    SubsetSize(OkSet(us, order), AllOk(us));
    SubsetSize(FinalSet(us, order), AllFinal(us));
  }

  // ---- The invariant ----

  /** The server is as after the atomic handlers in counting order. */
  ghost predicate Core(s: Server, us: seq<VehicleUpdate>, x: State) {
    && Tickful(s, us) && |x.pc| == |us|
    && (forall h: nat :: h in x.order <==> h < |us| && x.pc[h] != Entered)
    && Handlers(us, x.order) && Distinct(x.order)
    && x.server == Atomically(s, us, x.order).0
  }

  /** What a handler has loaded is no more than what is there now. */
  predicate LoadedOk(s: Server, pc: Pc) {
    match pc
    case HaveReplied(r) => r <= s.numReplied
    case HaveBoth(r, c) => r <= s.numReplied && c <= s.numCompleted
    case _ => true
  }

  predicate Loads(x: State) {
    forall h :: 0 <= h < |x.pc| ==> LoadedOk(x.server, x.pc[h])
  }

  /** Whoever counted last has loaded what is there now; once it has left, it pushed if nobody is missing. */
  predicate SawAll(x: State, h: nat)
    requires h < |x.pc|
  {
    match x.pc[h]
    case Entered => false
    case Counting => true
    case HaveReplied(r) => r == x.server.numReplied
    case HaveBoth(r, c) => r == x.server.numReplied && c == x.server.numCompleted
    case Left => |x.order| == |x.pc| ==> h in x.pushers
  }

  predicate LastSees(x: State) {
    x.order != [] ==> x.order[|x.order| - 1] < |x.pc| && SawAll(x, x.order[|x.order| - 1])
  }

  /** Who pushed has left, and did so after everyone counted. */
  predicate PushersOk(x: State) {
    && Distinct(x.pushers) && (forall h :: h in x.pushers ==> h < |x.pc| && x.pc[h] == Left)
    && (x.pushers != [] ==> |x.order| == |x.pc|)
  }

  ghost predicate Inv(s: Server, us: seq<VehicleUpdate>, x: State) {
    Core(s, us, x) && Loads(x) && LastSees(x) && PushersOk(x)
  }

  lemma CoreCounts(s: Server, us: seq<VehicleUpdate>, x: State)
    requires Core(s, us, x)
    ensures x.server.Valid() && |x.order| <= |us|
    ensures x.server.numCars == s.numCars && x.server.command == s.command
    ensures x.server.numReplied + x.server.numCompleted == s.numReplied + s.numCompleted + |x.order|
  {
    DistinctBounded(x.order, |us|);
    AtomicPushes(s, us, x.order);
    CountersAre(s, us, x.order);
  }

  /** Counting is where a handler takes effect. */
  lemma CountKeepsCore(s: Server, us: seq<VehicleUpdate>, x: State, h: nat)
    requires Core(s, us, x) && x.server.Valid() && CanMove(x, Count(h))
    ensures Core(s, us, Next(x, us, Count(h)))
  {
    assert (x.order + [h])[..|x.order|] == x.order;
  }

  lemma CountKeepsInv(s: Server, us: seq<VehicleUpdate>, x: State, h: nat)
    requires Inv(s, us, x) && x.server.Valid() && CanMove(x, Count(h))
    ensures Inv(s, us, Next(x, us, Count(h)))
  {
    CountKeepsCore(s, us, x, h);
    CoreCounts(s, us, Next(x, us, Count(h)));
    CountersOnlyGrow(x, us, h);
  }

  lemma CountersOnlyGrow(x: State, us: seq<VehicleUpdate>, h: nat)
    requires x.server.Valid() && |x.pc| == |us| && CanMove(x, Count(h)) && us[h].vehicleIndex < MAX_CARS
    requires Loads(x)
    ensures Loads(Next(x, us, Count(h)))
  {
  }

  lemma LoadKeepsInv(s: Server, us: seq<VehicleUpdate>, x: State, m: Move)
    requires Inv(s, us, x) && x.server.Valid() && CanMove(x, m) && (m.LoadReplied? || m.LoadCompleted?)
    ensures Inv(s, us, Next(x, us, m))
  {
  }

  /** A test succeeds exactly when everyone has counted and both loads came after that. */
  lemma TestSucceedsIff(s: Server, us: seq<VehicleUpdate>, x: State, h: nat)
    requires Inv(s, us, x) && CanMove(x, Test(h))
    ensures x.pc[h].replies + x.pc[h].completions == x.server.numCars <==>
              && |x.order| == |us|
              && x.pc[h].replies == x.server.numReplied && x.pc[h].completions == x.server.numCompleted
  {
    CoreCounts(s, us, x);
    assert LoadedOk(x.server, x.pc[h]);
  }

  lemma TestKeepsInv(s: Server, us: seq<VehicleUpdate>, x: State, h: nat)
    requires Inv(s, us, x) && x.server.Valid() && CanMove(x, Test(h))
    ensures Inv(s, us, Next(x, us, Test(h)))
  {
    TestSucceedsIff(s, us, x, h);
  }

  lemma NextInv(s: Server, us: seq<VehicleUpdate>, x: State, m: Move)
    requires Inv(s, us, x) && x.server.Valid() && CanMove(x, m)
    ensures Inv(s, us, Next(x, us, m))
  {
    match m {
      case Count(h) => CountKeepsInv(s, us, x, h);
      case Test(h) => TestKeepsInv(s, us, x, h);
      case _ => LoadKeepsInv(s, us, x, m);
    }
  }

  // ---- Every interleaving ----

  predicate Legal(s: Server, us: seq<VehicleUpdate>, moves: seq<Move>)
    requires Tickful(s, us)
    decreases |moves|, 0
  {
    moves == [] ||
    (Legal(s, us, moves[..|moves| - 1]) && CanMove(After(s, us, moves[..|moves| - 1]), moves[|moves| - 1]))
  }

  function After(s: Server, us: seq<VehicleUpdate>, moves: seq<Move>): (x: State)
    requires Tickful(s, us) && Legal(s, us, moves)
    ensures x.server.Valid() && |x.pc| == |us|
    decreases |moves|, 1
  {
    if moves == [] then Begin(s, us)
    else Next(After(s, us, moves[..|moves| - 1]), us, moves[|moves| - 1])
  }

  lemma {:induction false} AfterInv(s: Server, us: seq<VehicleUpdate>, moves: seq<Move>)
    requires Tickful(s, us) && Legal(s, us, moves)
    ensures Inv(s, us, After(s, us, moves))
    decreases |moves|
  {
    if moves != [] {
      AfterInv(s, us, moves[..|moves| - 1]);
      NextInv(s, us, After(s, us, moves[..|moves| - 1]), moves[|moves| - 1]);
    }
  }

  /** Run atomically, the handlers push once, when the last of them counts. */
  lemma {:induction false} AtomicPushes(s: Server, us: seq<VehicleUpdate>, order: seq<nat>)
    requires Tickful(s, us) && |order| <= |us| && Handlers(us, order)
    ensures var (after, pushes) := Atomically(s, us, order);
            && after.numReplied + after.numCompleted == s.numReplied + s.numCompleted + |order|
            && after.numCars == s.numCars
            && |pushes| == if |order| == |us| > 0 then 1 else 0
  {
    if order != [] {
      AtomicPushes(s, us, order[..|order| - 1]);
    }
  }

  /** The split handlers refine the atomic ones: the server is always as after the atomic handlers in
      counting order; nobody pushes before those have pushed theirs, nor twice; and when every handler
      has left, somebody has pushed. */
  lemma SplitRefinesAtomic(s: Server, us: seq<VehicleUpdate>, moves: seq<Move>)
    requires Tickful(s, us) && |us| > 0 && Legal(s, us, moves)
    ensures Handlers(us, After(s, us, moves).order)
    ensures var x := After(s, us, moves);
            var (server, pushes) := Atomically(s, us, x.order);
            && x.server == server && Distinct(x.order) && Distinct(x.pushers)
            && (x.pushers != [] ==> |pushes| == 1 && Elements(x.order) == All(|us|))
            && ((forall h :: 0 <= h < |us| ==> x.pc[h] == Left) ==> x.pushers != [] && |pushes| == 1)
  {
    var x := After(s, us, moves);
    AfterInv(s, us, moves);
    CoreCounts(s, us, x);
    AtomicPushes(s, us, x.order);
    DistinctBounded(x.order, |us|);
    if forall h :: 0 <= h < |us| ==> x.pc[h] == Left {
      AllLeft(s, us, x);
    }
  }

  lemma AllLeft(s: Server, us: seq<VehicleUpdate>, x: State)
    requires Inv(s, us, x) && |us| > 0 && forall h :: 0 <= h < |us| ==> x.pc[h] == Left
    ensures x.pushers != [] && |x.order| == |us|
  {
    assert forall h: nat :: h in All(|us|) ==> h in Elements(x.order);
    DistinctBounded(x.order, |us|);
    DistinctSize(x.order);
    SubsetSize(All(|us|), Elements(x.order));
    assert SawAll(x, x.order[|x.order| - 1]);
  }

  // ---- Who pushes ----

  /** Handler `h` loads each counter after every update of its kind was counted. */
  predicate OkBefore(us: seq<VehicleUpdate>, moves: seq<Move>, h: nat) {
    forall g: nat :: g < |us| && us[g].vehicleState == TICK_OK ==> Before(moves, Count(g), LoadReplied(h))
  }

  predicate FinalBefore(us: seq<VehicleUpdate>, moves: seq<Move>, h: nat) {
    forall g: nat :: g < |us| && us[g].vehicleState != TICK_OK ==> Before(moves, Count(g), LoadCompleted(h))
  }

  lemma OkBeforeNext(us: seq<VehicleUpdate>, moves: seq<Move>, m: Move, h: nat)
    ensures m != LoadReplied(h) ==> (OkBefore(us, moves + [m], h) <==> OkBefore(us, moves, h))
    ensures m == LoadReplied(h) && m !in moves ==>
              (OkBefore(us, moves + [m], h) <==> forall g: nat :: g in AllOk(us) ==> Count(g) in moves)
  {
    forall g: nat
      ensures Before(moves + [m], Count(g), LoadReplied(h)) <==>
                Before(moves, Count(g), LoadReplied(h)) || (m == LoadReplied(h) && Count(g) in moves)
    {
      BeforeNext(moves, m, Count(g), LoadReplied(h));
    }
  }

  lemma FinalBeforeNext(us: seq<VehicleUpdate>, moves: seq<Move>, m: Move, h: nat)
    ensures m != LoadCompleted(h) ==> (FinalBefore(us, moves + [m], h) <==> FinalBefore(us, moves, h))
    ensures m == LoadCompleted(h) && m !in moves ==>
              (FinalBefore(us, moves + [m], h) <==> forall g: nat :: g in AllFinal(us) ==> Count(g) in moves)
  {
    forall g: nat
      ensures Before(moves + [m], Count(g), LoadCompleted(h)) <==>
                Before(moves, Count(g), LoadCompleted(h)) || (m == LoadCompleted(h) && Count(g) in moves)
    {
      BeforeNext(moves, m, Count(g), LoadCompleted(h));
    }
  }

  lemma {:induction false} CountsInOrder(s: Server, us: seq<VehicleUpdate>, moves: seq<Move>, g: nat)
    requires Tickful(s, us) && Legal(s, us, moves)
    ensures Count(g) in moves <==> g in After(s, us, moves).order
    decreases |moves|
  {
    if moves != [] {
      CountsInOrder(s, us, moves[..|moves| - 1], g);
      assert moves == moves[..|moves| - 1] + [moves[|moves| - 1]];
    }
  }

  /** A load sees a full counter exactly when every update of that kind was counted before. */
  lemma LoadSeesFull(s: Server, us: seq<VehicleUpdate>, moves: seq<Move>)
    requires Tickful(s, us) && Legal(s, us, moves)
    ensures var server := After(s, us, moves).server;
            && (server.numReplied == FullReplied(s, us) <==> forall g: nat :: g in AllOk(us) ==> Count(g) in moves)
            && (server.numCompleted == FullCompleted(s, us) <==> forall g: nat :: g in AllFinal(us) ==>
                Count(g) in moves)
  {
    var x := After(s, us, moves);
    AfterInv(s, us, moves);
    FullWhenAllIn(s, us, x.order);
    forall g: nat
      ensures Count(g) in moves <==> g in x.order
    {
      CountsInOrder(s, us, moves, g);
    }
  }

  /** What the schedule so far says of handler `h`'s loads. */
  predicate Tracks(s: Server, us: seq<VehicleUpdate>, moves: seq<Move>, h: nat, pc: Pc, pushed: bool) {
    match pc
    case HaveReplied(r) =>
      LoadCompleted(h) !in moves && (r == FullReplied(s, us) <==> OkBefore(us, moves, h))
    case HaveBoth(r, c) =>
      && (r == FullReplied(s, us) <==> OkBefore(us, moves, h))
      && (c == FullCompleted(s, us) <==> FinalBefore(us, moves, h))
    case Left => pushed <==> OkBefore(us, moves, h) && FinalBefore(us, moves, h)
    case _ => LoadReplied(h) !in moves && LoadCompleted(h) !in moves
  }

  lemma {:induction false} HandlerTracks(s: Server, us: seq<VehicleUpdate>, moves: seq<Move>, h: nat)
    requires Tickful(s, us) && Legal(s, us, moves) && h < |us|
    ensures var x := After(s, us, moves); Tracks(s, us, moves, h, x.pc[h], h in x.pushers)
    decreases |moves|
  {
    if moves != [] {
      var front, m := moves[..|moves| - 1], moves[|moves| - 1];
      assert moves == front + [m];
      HandlerTracks(s, us, front, h);
      AfterInv(s, us, front);
      OkBeforeNext(us, front, m, h);
      FinalBeforeNext(us, front, m, h);
      LoadSeesFull(s, us, front);
      TracksNext(s, us, front, After(s, us, front), m, h);
    }
  }

  lemma TracksNext(s: Server, us: seq<VehicleUpdate>, front: seq<Move>, x: State, m: Move, h: nat)
    requires Inv(s, us, x) && x.server.Valid() && CanMove(x, m) && h < |us|
    requires Tracks(s, us, front, h, x.pc[h], h in x.pushers)
    requires m != LoadReplied(h) ==> (OkBefore(us, front + [m], h) <==> OkBefore(us, front, h))
    requires m == LoadReplied(h) ==> (OkBefore(us, front + [m], h) <==> x.server.numReplied == FullReplied(s, us))
    requires m != LoadCompleted(h) ==> (FinalBefore(us, front + [m], h) <==> FinalBefore(us, front, h))
    requires m == LoadCompleted(h) ==> (FinalBefore(us, front + [m], h) <==>
                                        x.server.numCompleted == FullCompleted(s, us))
    ensures var x' := Next(x, us, m); Tracks(s, us, front + [m], h, x'.pc[h], h in x'.pushers)
  {
    if m == Test(h) {
      TestSeesFull(s, us, x, h);
    }
  }

  lemma TestSeesFull(s: Server, us: seq<VehicleUpdate>, x: State, h: nat)
    requires Inv(s, us, x) && CanMove(x, Test(h))
    ensures x.pc[h].replies + x.pc[h].completions == x.server.numCars <==>
              x.pc[h].replies == FullReplied(s, us) && x.pc[h].completions == FullCompleted(s, us)
  {
    CoreCounts(s, us, x);
    FullIsCars(s, us);
    FullWhenAllIn(s, us, x.order);
    assert LoadedOk(x.server, x.pc[h]);
  }

  /** Who pushes, exactly: the handlers that load the reply count after every TICK_OK update was counted
      and the completion count after every final one was. */
  lemma PushesIffLoadedLast(s: Server, us: seq<VehicleUpdate>, moves: seq<Move>, h: nat)
    requires Tickful(s, us) && Legal(s, us, moves) && h < |us| && After(s, us, moves).pc[h] == Left
    ensures h in After(s, us, moves).pushers <==> OkBefore(us, moves, h) && FinalBefore(us, moves, h)
  {
    HandlerTracks(s, us, moves, h);
  }

  /** When all have left, as many pushes were made as there are such handlers: one if there is only one. */
  lemma PushesCounted(s: Server, us: seq<VehicleUpdate>, moves: seq<Move>)
    requires Tickful(s, us) && Legal(s, us, moves) && forall h :: 0 <= h < |us| ==> After(s, us, moves).pc[h] == Left
    ensures |After(s, us, moves).pushers| ==
            |set h: nat | h < |us| && OkBefore(us, moves, h) && FinalBefore(us, moves, h)|
  {
    var x := After(s, us, moves);
    AfterInv(s, us, moves);
    var late := set h: nat | h < |us| && OkBefore(us, moves, h) && FinalBefore(us, moves, h);
    forall h: nat
      ensures h in Elements(x.pushers) <==> h in late
    {
      if h < |us| {
        PushesIffLoadedLast(s, us, moves, h);
      }
    }
    assert Elements(x.pushers) == late;
    DistinctSize(x.pushers);
  }

  lemma Snoc(s: Server, us: seq<VehicleUpdate>, moves: seq<Move>, m: Move)
    requires Tickful(s, us) && Legal(s, us, moves) && CanMove(After(s, us, moves), m)
    ensures Legal(s, us, moves + [m]) && After(s, us, moves + [m]) == Next(After(s, us, moves), us, m)
  {
    assert (moves + [m])[..|moves|] == moves;
  }

  /** Any number of handlers can all push: if all count before any loads. */
  lemma AllMayPush(s: Server, us: seq<VehicleUpdate>) returns (moves: seq<Move>)
    requires Tickful(s, us)
    ensures Legal(s, us, moves) && After(s, us, moves).pushers == seq(|us|, i => i)
  {
    moves := CountUpTo(s, us, |us|);
    var x := After(s, us, moves);
    AfterInv(s, us, moves);
    DistinctSize(x.order);
    SubsetSize(All(|us|), Elements(x.order));
    CoreCounts(s, us, x);
    moves := PushUpTo(s, us, moves, |us|);
  }

  lemma {:induction false} CountUpTo(s: Server, us: seq<VehicleUpdate>, n: nat) returns (moves: seq<Move>)
    requires Tickful(s, us) && n <= |us|
    ensures Legal(s, us, moves)
    ensures var x := After(s, us, moves);
            x.pushers == [] && forall h :: 0 <= h < |us| ==> x.pc[h] == if h < n then Counting else Entered
  {
    if n == 0 {
      moves := [];
    } else {
      moves := CountUpTo(s, us, n - 1);
      Snoc(s, us, moves, Count(n - 1));
      moves := moves + [Count(n - 1)];
    }
  }

  lemma {:induction false} PushUpTo(s: Server, us: seq<VehicleUpdate>, counted: seq<Move>, n: nat)
      returns (moves: seq<Move>)
    requires Tickful(s, us) && Legal(s, us, counted) && n <= |us|
    requires var x := After(s, us, counted);
             && x.pushers == [] && (forall h :: 0 <= h < |us| ==> x.pc[h] == Counting)
             && x.server.numReplied + x.server.numCompleted == x.server.numCars
    ensures Legal(s, us, moves)
    ensures var x := After(s, us, moves);
            && x.pushers == seq(n, i => i) && x.server == After(s, us, counted).server
            && forall h :: n <= h < |us| ==> x.pc[h] == Counting
  {
    if n == 0 {
      moves := counted;
    } else {
      var h := n - 1;
      moves := PushUpTo(s, us, counted, h);
      Snoc(s, us, moves, LoadReplied(h));
      moves := moves + [LoadReplied(h)];
      Snoc(s, us, moves, LoadCompleted(h));
      moves := moves + [LoadCompleted(h)];
      Snoc(s, us, moves, Test(h));
      moves := moves + [Test(h)];
    }
  }

  // ---- What further pushes do ----

  /** A push after one that was accepted: it trips the queue-empty assertion exactly when the first is
      still unread; if that was read, it is dropped exactly when it is the same tick, with the same
      duration, and otherwise queued as a stale completion. */
  lemma SecondPush(p: Push, first: Tick, second: Tick, read: bool)
    requires p.que == [] && !IsDupe(p, first)
    ensures var p1 := PushTick(p, first).0;
            var (p2, ok) := PushTick(if read then p1.(que := []) else p1, second);
            && (ok <==> read)
            && (read ==> p2.que == if second == first then [] else [second])
  {
  }

  /** The ticks the orchestrator gets to see when it reads each push before the next arrives. */
  function Seen(p: Push, pushes: seq<Tick>): seq<Tick>
    decreases |pushes|
  {
    if pushes == [] then []
    else
      var p' := PushTick(p.(que := []), pushes[0]).0;
      p'.que + Seen(p', pushes[1..])
  }

  lemma {:induction false} SeenAfter(p: Push, last: Tick, pushes: seq<Tick>)
    decreases |pushes|
    requires p.lastTickId == last.tickId && p.lastCommand == Some(last.command)
        && p.lastDurationNs == last.lastClientDurationNs
    ensures Seen(p, pushes) == [] <==> forall i :: 0 <= i < |pushes| ==> pushes[i] == last
  {
    if pushes != [] {
      if pushes[0] == last {
        SeenAfter(PushTick(p.(que := []), pushes[0]).0, last, pushes[1..]);
        assert forall i :: 1 <= i < |pushes| ==> pushes[i] == pushes[1..][i - 1];
      }
    }
  }

  /** Several pushes amount to one completion exactly when they are all alike. */
  lemma OneCompletionIffAlike(p: Push, pushes: seq<Tick>)
    requires pushes != [] && !IsDupe(p, pushes[0])
    ensures Seen(p, pushes)[..1] == [pushes[0]]
    ensures |Seen(p, pushes)| == 1 <==> forall i :: 0 <= i < |pushes| ==> pushes[i] == pushes[0]
  {
    SeenAfter(PushTick(p.(que := []), pushes[0]).0, pushes[0], pushes[1..]);
    assert forall i :: 1 <= i < |pushes| ==> pushes[i] == pushes[1..][i - 1];
  }

  /** The pushes of a state, in order. */
  function PushesOf(us: seq<VehicleUpdate>, c: Command, pushers: seq<nat>): (r: seq<Tick>)
    requires forall i :: 0 <= i < |pushers| ==> pushers[i] < |us|
    ensures |r| == |pushers| && forall i :: 0 <= i < |r| ==> r[i] == PushOf(us, c, pushers[i])
  {
    seq(|pushers|, i requires 0 <= i < |pushers| => PushOf(us, c, pushers[i]))
  }

  /** For the updates of one tick: exactly when the handlers that load late report the same duration. */
  lemma TickCompletesOnceIff(s: Server, us: seq<VehicleUpdate>, moves: seq<Move>, p: Push, t: int)
    requires Tickful(s, us) && |us| > 0 && Legal(s, us, moves)
    requires forall h :: 0 <= h < |us| ==> us[h].tickId == t && After(s, us, moves).pc[h] == Left
    requires p.lastTickId != t
    ensures var ps := After(s, us, moves).pushers; forall i :: 0 <= i < |ps| ==> ps[i] < |us|
    ensures var seen := Seen(p, PushesOf(us, s.command, After(s, us, moves).pushers)); seen != [] && seen[0].tickId == t
    ensures |Seen(p, PushesOf(us, s.command, After(s, us, moves).pushers))| == 1 <==>
            forall g: nat, h: nat ::
              && g < |us| && OkBefore(us, moves, g) && FinalBefore(us, moves, g)
              && h < |us| && OkBefore(us, moves, h) && FinalBefore(us, moves, h)
              ==> us[g].durationNs == us[h].durationNs
  {
    var x := After(s, us, moves);
    AfterInv(s, us, moves);
    AllLeft(s, us, x);
    assert forall i :: 0 <= i < |x.pushers| ==> x.pushers[i] in x.pushers;
    var pushes := PushesOf(us, s.command, x.pushers);
    OneCompletionIffAlike(p, pushes);
    forall h: nat
      ensures h in x.pushers <==> h < |us| && OkBefore(us, moves, h) && FinalBefore(us, moves, h)
    {
      if h < |us| {
        PushesIffLoadedLast(s, us, moves, h);
      }
    }
    AlikeIffSameDuration(us, s.command, x.pushers, t);
  }

  lemma AlikeIffSameDuration(us: seq<VehicleUpdate>, c: Command, pushers: seq<nat>, t: int)
    requires pushers != [] && forall i :: 0 <= i < |pushers| ==> pushers[i] < |us|
    requires forall h :: 0 <= h < |us| ==> us[h].tickId == t
    ensures var pushes := PushesOf(us, c, pushers);
            (forall i :: 0 <= i < |pushes| ==> pushes[i] == pushes[0]) <==>
            (forall g, h :: g in pushers && h in pushers ==> us[g].durationNs == us[h].durationNs)
  {
    var pushes := PushesOf(us, c, pushers);
    if forall i :: 0 <= i < |pushes| ==> pushes[i] == pushes[0] {
      forall g, h | g in pushers && h in pushers
        ensures us[g].durationNs == us[h].durationNs
      {
        var i :| 0 <= i < |pushers| && pushers[i] == g;
        var j :| 0 <= j < |pushers| && pushers[j] == h;
        assert pushes[i] == pushes[0] && pushes[j] == pushes[0];
      }
    }
  }
}
