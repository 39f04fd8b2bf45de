/** Runs of the edge scenario of any length, built step by step: every car registers, and in every tick
    each car in turn takes the tick, runs a step and replies. */
module EdgeRuns {
  import opened Messages
  import opened IndexSets
  import opened VehicleSim
  import opened Barrier
  import opened BarrierRuns
  import opened EdgeScript
  import opened EdgeScenario
  import opened Backlog
  import Reports

  /** Running `run` from `w` ends in `w'` and gives these orders. */
  ghost predicate Reaches(w: World, run: seq<Action>, w': World, orders: seq<Order>) {
    Legal(w, run) && After(w, run) == w' && OrdersOf(run) == orders
  }

  lemma Unlast(w: World, run: seq<Action>, w': World, orders: seq<Order>) returns (before: World, o: seq<Order>)
    requires Reaches(w, run, w', orders) && run != []
    ensures Reaches(w, run[..|run| - 1], before, o) && Enabled(before, run[|run| - 1])
    ensures w' == Apply(before, run[|run| - 1]) && orders == o + OrderOf(run[|run| - 1])
  {
    before, o := After(w, run[..|run| - 1]), OrdersOf(run[..|run| - 1]);
  }

  lemma {:induction false} Chained(w: World, a: seq<Action>, w1: World, o1: seq<Order>, b: seq<Action>, w2: World,
                                  o2: seq<Order>)
    requires Reaches(w, a, w1, o1) && Reaches(w1, b, w2, o2)
    ensures Reaches(w, a + b, w2, o1 + o2)
    decreases |b|
  {
    if b == [] {
      Stopped(w1, w2, o2);
      assert a + b == a && o1 + o2 == o1;
    } else {
      var before, o := Unlast(w1, b, w2, o2);
      Chained(w, a, w1, o1, b[..|b| - 1], before, o);
      ChainedLast(w, a, b[..|b| - 1], before, o1, o, b[|b| - 1]);
      assert b[..|b| - 1] + [b[|b| - 1]] == b;
    }
  }

  lemma Stopped(w: World, w': World, orders: seq<Order>)
    requires Reaches(w, [], w', orders)
    ensures w' == w && orders == []
  {
  }

  lemma ChainedLast(w: World, a: seq<Action>, b: seq<Action>, w': World, o1: seq<Order>, o2: seq<Order>, x: Action)
    requires Reaches(w, a + b, w', o1 + o2) && Enabled(w', x)
    ensures Reaches(w, a + (b + [x]), Apply(w', x), o1 + (o2 + OrderOf(x)))
  {
    Associates(a, b, [x]);
    Associates(o1, o2, OrderOf(x));
    Last(w, a + b, w', o1 + o2, x);
  }

  lemma Associates<T>(a: seq<T>, b: seq<T>, c: seq<T>)
    ensures a + b + c == a + (b + c)
  {
  }

  lemma Last(w: World, run: seq<Action>, w': World, orders: seq<Order>, a: Action)
    requires Reaches(w, run, w', orders) && Enabled(w', a)
    ensures Reaches(w, run + [a], Apply(w', a), orders + OrderOf(a))
  {
    assert (run + [a])[..|run|] == run;
  }

  lemma Nothing(w: World)
    ensures Reaches(w, [], w, [])
  {
  }

  lemma Single(w: World, a: Action)
    requires Enabled(w, a)
    ensures Reaches(w, [a], Apply(w, a), OrderOf(a))
  {
    Last(w, [], w, [], a);
    assert [] + [a] == [a];
  }

  /** A tick in progress that nobody has left. */
  predicate Open(w: World) {
    Inv(w) && w.orch.phase == AwaitTick && w.server.isEdge && w.done == {} && Scheduled(w)
  }

  function Pong(w: World): Tick { Tick(w.orch.tickId, w.server.command, INVALID_TIME) }

  /** The tick is on its way to vehicle `v`, which waits for it. */
  predicate Due(w: World, v: nat) {
    && v < |w.vehicles| == |w.mail| && v !in w.replied
    && w.vehicles[v].phase.Waiting? && w.vehicles[v].push.que == [] && w.mail[v] == [Pong(w)]
  }

  /** `w'` is `w` with vehicle `v` in another phase, its queue `que`, nothing in its mail. */
  predicate Moved(w: World, w': World, v: nat, phase: Phase, que: seq<Tick>) {
    && v < |w.vehicles| == |w.mail|
    && |w'.vehicles| == |w.vehicles| && w'.vehicles == w.vehicles[v := w'.vehicles[v]] && w'.mail == w.mail[v := []]
    && w'.vehicles[v].phase == phase && w'.vehicles[v].push.que == que && !w'.vehicles[v].reportedDone
    && w'.server == w.server && w'.orch == w.orch && w'.replied == w.replied && w'.done == w.done
        && w'.control == w.control
  }

  lemma DeliverStep(w: World, v: nat) returns (w': World)
    requires Open(w) && Due(w, v)
    ensures Reaches(w, [Deliver(v, 0)], w', []) && Open(w')
    ensures Moved(w, w', v, w.vehicles[v].phase, [Pong(w)])
  {
    assert VehicleInv(w, v);
    w' := Apply(w, Deliver(v, 0));
    StaysOpen(w, w', Deliver(v, 0));
    Single(w, Deliver(v, 0));
  }

  lemma TakeStep(w: World, v: nat) returns (w': World)
    requires Open(w) && v < |w.vehicles| && w.mail[v] == [] && v !in w.replied
    requires w.vehicles[v].phase.Waiting? && w.vehicles[v].push.que == [Pong(w)]
    ensures Reaches(w, [TakePush(v)], w', []) && Open(w')
    ensures Moved(w, w', v, if w.orch.tickId >= 2 && w.server.command == PULL_WAYPOINTS_AND_TICK then Fetching
                  else Running(TICK), [])
  {
    assert VehicleInv(w, v);
    w' := Apply(w, TakePush(v));
    StaysOpen(w, w', TakePush(v));
    Single(w, TakePush(v));
  }

  lemma FetchStep(w: World, v: nat) returns (w': World)
    requires Open(w) && v < |w.vehicles| && w.mail[v] == [] && !w.vehicles[v].reportedDone
    requires w.vehicles[v].phase == Fetching && w.vehicles[v].push.que == []
    ensures Reaches(w, [Fetch(v)], w', []) && Open(w') && Moved(w, w', v, Running(TICK), [])
  {
    w' := Apply(w, Fetch(v));
    StaysOpen(w, w', Fetch(v));
    Single(w, Fetch(v));
  }

  function Reply(w: World, v: nat, duration: int): VehicleUpdate
    requires v < |w.vehicles|
  {
    VehicleUpdate(w.vehicles[v].tickId, v, TICK_OK, duration)
  }

  lemma RunStep(w: World, v: nat, duration: int) returns (w': World)
    requires Open(w) && v < |w.vehicles| && w.mail[v] == [] && !w.vehicles[v].reportedDone
    requires w.vehicles[v].phase == Running(TICK) && w.vehicles[v].push.que == []
    ensures Reaches(w, [Step(v, false, duration)], w', []) && Open(w')
    ensures Moved(w, w', v, Sending(Reply(w, v, duration)), [])
  {
    w' := Apply(w, Step(v, false, duration));
    StaysOpen(w, w', Step(v, false, duration));
    Single(w, Step(v, false, duration));
  }

  /** `w'` is `w` after vehicle `v` replied. */
  predicate Answered(w: World, w': World, v: nat) {
    && v < |w.vehicles| == |w.mail|
    && |w'.vehicles| == |w.vehicles| && w'.vehicles == w.vehicles[v := w'.vehicles[v]] && w'.mail == w.mail[v := []]
    && w'.replied == w.replied + {v} && w'.done == w.done && w'.control == w.control
    && w'.server.command == w.server.command && w'.server.isEdge == w.server.isEdge
    && w'.orch.phase == w.orch.phase && w'.orch.tickId == w.orch.tickId
  }

  /** Vehicle `v` waits for its call to return. */
  predicate Awaits(w: World, v: nat) {
    && v < |w.vehicles| == |w.mail| && w.mail[v] == [] && w.vehicles[v].push.que == []
    && w.vehicles[v].phase.Returning? && !IsDone(w.vehicles[v].phase.update.vehicleState)
  }

  lemma Replied(w: World, v: nat, tickId: int)
    requires Open(w) && v < |w.vehicles| && w.mail[v] == [] && w.vehicles[v].push.que == []
    requires w.vehicles[v].phase == Sending(VehicleUpdate(tickId, v, TICK_OK, 0))
    ensures Enabled(w, Handle(v)) && Answered(w, Handled(w, v), v) && Awaits(Handled(w, v), v)
  {
    HandleFinds(w, v);
    assert CanHandle(w, v);
    HandleFrame(w, v);
    HandleKeeps(w, v);
  }

  lemma HandleKeeps(w: World, v: nat)
    requires CanHandle(w, v)
    ensures Handled(w, v).control == w.control && Handled(w, v).server.isEdge == w.server.isEdge
  {
  }

  lemma ReplyStep(w: World, v: nat, tickId: int) returns (w': World)
    requires Open(w) && v < |w.vehicles| && w.mail[v] == [] && w.vehicles[v].push.que == []
    requires w.vehicles[v].phase == Sending(VehicleUpdate(tickId, v, TICK_OK, 0))
    ensures Reaches(w, [Handle(v)], w', []) && Open(w') && Answered(w, w', v) && Awaits(w', v)
  {
    Replied(w, v, tickId);
    w' := Handled(w, v);
    StaysOpen(w, w', Handle(v));
    Single(w, Handle(v));
  }

  lemma ReturnStep(w: World, v: nat) returns (w': World)
    requires Open(w) && Awaits(w, v) && !w.vehicles[v].reportedDone
    ensures Reaches(w, [EndSend(v)], w', []) && Open(w') && Moved(w, w', v, Waiting(false), [])
  {
    w' := Apply(w, EndSend(v));
    StaysOpen(w, w', EndSend(v));
    Single(w, EndSend(v));
  }

  lemma StaysOpen(w: World, w': World, a: Action)
    requires Open(w) && Enabled(w, a) && w' == Apply(w, a) && w'.done == {} && w'.orch.phase == AwaitTick
    requires w'.server.command == w.server.command && w'.server.isEdge && w'.orch.tickId == w.orch.tickId
    ensures Open(w')
  {
    StepKeepsInv(w, a);
  }

  lemma MovedAnswered(w: World, w1: World, w2: World, v: nat, phase: Phase)
    requires Moved(w, w1, v, phase, []) && Answered(w1, w2, v)
    ensures Answered(w, w2, v)
  {
  }

  lemma AnsweredMoved(w: World, w1: World, w2: World, v: nat, phase: Phase)
    requires Answered(w, w1, v) && Moved(w1, w2, v, phase, [])
    ensures Answered(w, w2, v) && w2.vehicles[v].phase == phase
  {
  }

  predicate AllPrivate(run: seq<Action>) {
    forall i :: 0 <= i < |run| ==> Private(run[i])
  }

  lemma PrivateChained(a: seq<Action>, b: seq<Action>)
    requires AllPrivate(a) && AllPrivate(b)
    ensures AllPrivate(a + b)
  {
  }

  /** One vehicle takes the tick, fetches waypoints if it carries any, runs a step and replies. */
  lemma ServeVehicle(w: World, v: nat) returns (run: seq<Action>, w': World)
    requires Open(w) && Due(w, v)
    ensures Reaches(w, run, w', []) && Open(w') && Answered(w, w', v) && w'.vehicles[v].phase == Waiting(false)
  {
    var head, w1 := ReadTick(w, v);
    var tail, w2 := AnswerTick(w1, v);
    Chained(w, head, w1, [], tail, w2, []);
    MovedAnswered(w, w1, w2, v, Running(TICK));
    run, w' := head + tail, w2;
  }

  lemma ReadTick(w: World, v: nat) returns (run: seq<Action>, w': World)
    requires Open(w) && Due(w, v)
    ensures Reaches(w, run, w', []) && AllPrivate(run) && Open(w') && Moved(w, w', v, Running(TICK), [])
  {
    var w1 := DeliverStep(w, v);
    var tail, w2 := TakeUp(w1, v);
    PrivateChained([Deliver(v, 0)], tail);
    Chained(w, [Deliver(v, 0)], w1, [], tail, w2, []);
    run, w' := [Deliver(v, 0)] + tail, w2;
  }

  lemma TakeUp(w: World, v: nat) returns (run: seq<Action>, w': World)
    requires Open(w) && v < |w.vehicles| && w.mail[v] == [] && v !in w.replied
    requires w.vehicles[v].phase.Waiting? && w.vehicles[v].push.que == [Pong(w)]
    ensures Reaches(w, run, w', []) && AllPrivate(run) && Open(w') && Moved(w, w', v, Running(TICK), [])
  {
    w' := TakeStep(w, v);
    run := [TakePush(v)];
    if w'.vehicles[v].phase == Fetching {
      run, w' := FetchUp(w, w', v);
    }
  }

  lemma FetchUp(w: World, w1: World, v: nat) returns (run: seq<Action>, w': World)
    requires Reaches(w, [TakePush(v)], w1, []) && Open(w1) && Moved(w, w1, v, Fetching, [])
    ensures Reaches(w, run, w', []) && AllPrivate(run) && Open(w') && Moved(w, w', v, Running(TICK), [])
  {
    w' := FetchStep(w1, v);
    Chained(w, [TakePush(v)], w1, [], [Fetch(v)], w', []);
    run := [TakePush(v)] + [Fetch(v)];
  }

  lemma AnswerTick(w: World, v: nat) returns (run: seq<Action>, w': World)
    requires Open(w) && v < |w.vehicles| && w.mail[v] == [] && !w.vehicles[v].reportedDone
    requires w.vehicles[v].phase == Running(TICK) && w.vehicles[v].push.que == []
    ensures Reaches(w, run, w', []) && Open(w') && Answered(w, w', v) && w'.vehicles[v].phase == Waiting(false)
  {
    var w1 := RunStep(w, v, 0);
    var tail, w2 := ReplyAndReturn(w1, v, w.vehicles[v].tickId);
    Chained(w, [Step(v, false, 0)], w1, [], tail, w2, []);
    MovedAnswered(w, w1, w2, v, Sending(Reply(w, v, 0)));
    run, w' := [Step(v, false, 0)] + tail, w2;
  }

  lemma ReplyAndReturn(w: World, v: nat, tickId: int) returns (run: seq<Action>, w': World)
    requires Open(w) && v < |w.vehicles| && w.mail[v] == [] && w.vehicles[v].push.que == []
    requires w.vehicles[v].phase == Sending(VehicleUpdate(tickId, v, TICK_OK, 0))
    ensures Reaches(w, run, w', []) && Open(w') && Answered(w, w', v) && w'.vehicles[v].phase == Waiting(false)
  {
    var w1 := ReplyStep(w, v, tickId);
    NotDone(w1, v);
    w' := ReturnStep(w1, v);
    Chained(w, [Handle(v)], w1, [], [EndSend(v)], w', []);
    AnsweredMoved(w, w1, w', v, Waiting(false));
    run := [Handle(v)] + [EndSend(v)];
  }

  lemma NotDone(w: World, v: nat)
    requires Open(w) && v < |w.vehicles|
    ensures !w.vehicles[v].reportedDone
  {
    assert VehicleInv(w, v);
  }

  /** The first `n` vehicles have been served, in order. */
  predicate ServedUpTo(w: World, now: World, n: nat) {
    && Open(now) && now.orch.tickId == w.orch.tickId && |now.vehicles| == |w.vehicles| >= n && now.replied == All(n)
    && (forall v :: 0 <= v < n ==> now.vehicles[v].phase == Waiting(false))
    && (forall v :: n <= v < |w.vehicles| ==> Due(now, v))
  }

  lemma ServedNext(w: World, now: World, w': World, n: nat)
    requires ServedUpTo(w, now, n) && n < |w.vehicles| && Open(w')
    requires Answered(now, w', n) && w'.vehicles[n].phase == Waiting(false)
    ensures ServedUpTo(w, w', n + 1)
  {
    StillDue(now, w', n, |w.vehicles|);
  }

  lemma {:induction false} ServeUpTo(w: World, n: nat) returns (run: seq<Action>, w': World)
    requires ServedUpTo(w, w, 0) && n <= |w.vehicles|
    ensures Reaches(w, run, w', []) && ServedUpTo(w, w', n)
    decreases n
  {
    Nothing(w);
    run, w' := [], w;
    if n > 0 {
      var head, now := ServeUpTo(w, n - 1);
      run, w' := ServeNext(w, head, now, n - 1);
    }
  }

  lemma ServeNext(w: World, head: seq<Action>, now: World, n: nat) returns (run: seq<Action>, w': World)
    requires Reaches(w, head, now, []) && ServedUpTo(w, now, n) && n < |w.vehicles|
    ensures Reaches(w, run, w', []) && ServedUpTo(w, w', n + 1)
  {
    var tail, next := ServeVehicle(now, n);
    Chained(w, head, now, [], tail, next, []);
    ServedNext(w, now, next, n);
    run, w' := head + tail, next;
  }

  lemma StillDue(w: World, w': World, v: nat, n: nat)
    requires Answered(w, w', v) && n == |w.vehicles| && forall u :: v <= u < n ==> Due(w, u)
    ensures forall u :: v < u < n ==> Due(w', u)
  {
    forall u | v < u < n
      ensures Due(w', u)
    {
      assert Due(w, u);
    }
  }

  /** Between ticks: nobody done, everybody waiting for a push. */
  predicate Resting(w: World) {
    && Inv(w) && w.orch.phase == Ready && w.server.isEdge && w.done == {} && |w.vehicles| > 0
    && forall v :: 0 <= v < |w.vehicles| ==> w.vehicles[v].phase == Waiting(w.orch.tickId == 0)
  }

  lemma AllDue(w: World, c: Command)
    requires Resting(w) && c in {TICK, PULL_WAYPOINTS_AND_TICK} && (w.orch.tickId == 0 ==> c == TICK)
    ensures Enabled(w, Broadcasting(c)) && Open(Ticked(w, c)) && Ticked(w, c).replied == {}
    ensures forall v :: 0 <= v < |w.vehicles| ==> Due(Ticked(w, c), v)
  {
    BroadcastKeepsInv(w, c);
    forall v | 0 <= v < |w.vehicles|
      ensures Due(Ticked(w, c), v)
    {
      AllEnrolled(w, v);
      assert VehicleInv(w, v);
    }
  }

  lemma FinishProceeds(w: World)
    requires ServedUpTo(w, w, |w.vehicles|) && |w.vehicles| > 0
    ensures Enabled(w, Proceed) && Inv(Apply(w, Proceed))
    ensures w.orch.tickId >= 2 ==> Apply(w, Proceed).orch.phase == Draining(false)
    ensures w.orch.tickId == 1 ==> Apply(w, Proceed).orch.phase == Ready
    ensures SameBut(w, Apply(w, Proceed))
  {
    assert 0 in w.replied;
    assert w.replied + w.done == w.replied;
    StepKeepsInv(w, Proceed);
  }

  /** Only the orchestrator's phase and queue and the server's counters differ. */
  predicate SameBut(w: World, w': World) {
    && w'.vehicles == w.vehicles && w'.done == w.done && w'.orch.tickId == w.orch.tickId
    && w'.server.isEdge == w.server.isEdge
  }

  lemma DrainStep(w: World)
    requires Inv(w) && w.orch.phase == Draining(false)
    ensures Enabled(w, Drain) && Inv(Apply(w, Drain)) && Apply(w, Drain).orch.phase == Ready
        && SameBut(w, Apply(w, Drain))
  {
    StepKeepsInv(w, Drain);
  }

  /** Everyone having replied, the orchestrator goes on to the next tick. */
  lemma FinishTick(w: World) returns (run: seq<Action>, w': World)
    requires ServedUpTo(w, w, |w.vehicles|) && |w.vehicles| > 0
    ensures Reaches(w, run, w', []) && Resting(w') && w'.orch.tickId == w.orch.tickId && |w'.vehicles| == |w.vehicles|
  {
    FinishProceeds(w);
    Single(w, Proceed);
    run, w' := [Proceed], Apply(w, Proceed);
    if w.orch.tickId >= 2 {
      DrainStep(w');
      Last(w, run, w', [], Drain);
      run, w' := run + [Drain], Apply(w', Drain);
    }
  }

  /** What the schedule orders for tick `t`. */
  function OrdersAt(t: nat, k: nat): seq<Order>
    requires k >= 1
  {
    if t % k == 0 then [PushSet, Send(CommandAt(t, k))] else [Send(CommandAt(t, k))]
  }

  lemma BroadcastStep(w: World, c: Command) returns (w': World)
    requires Resting(w) && c in {TICK, PULL_WAYPOINTS_AND_TICK} && (w.orch.tickId == 0 ==> c == TICK)
    ensures Reaches(w, [Broadcasting(c)], w', [Send(c)])
    ensures ServedUpTo(w', w', 0) && w'.orch.tickId == w.orch.tickId + 1 && |w'.vehicles| == |w.vehicles|
  {
    AllDue(w, c);
    Single(w, Broadcasting(c));
    w' := Ticked(w, c);
  }

  lemma PushStep(w: World) returns (w': World)
    requires Resting(w)
    ensures Reaches(w, [PushBuffers([])], w', [PushSet]) && Resting(w') && w'.orch == w.orch
        && |w'.vehicles| == |w.vehicles|
  {
    StepKeepsInv(w, PushBuffers([]));
    Single(w, PushBuffers([]));
    w' := Apply(w, PushBuffers([]));
  }

  lemma PushAndBroadcast(w: World, c: Command) returns (w': World)
    requires Resting(w) && c in {TICK, PULL_WAYPOINTS_AND_TICK} && (w.orch.tickId == 0 ==> c == TICK)
    ensures Reaches(w, [PushBuffers([])] + [Broadcasting(c)], w', [PushSet] + [Send(c)])
    ensures ServedUpTo(w', w', 0) && w'.orch.tickId == w.orch.tickId + 1 && |w'.vehicles| == |w.vehicles|
  {
    var pushed := PushStep(w);
    w' := BroadcastStep(pushed, c);
    Chained(w, [PushBuffers([])], pushed, [PushSet], [Broadcasting(c)], w', [Send(c)]);
  }

  lemma OrdersAtIs(t: nat, k: nat)
    requires k >= 2
    ensures OrdersAt(t, k) == if t % k == 0 then [PushSet] + [Send(CommandAt(t, k))] else [Send(CommandAt(t, k))]
    ensures CommandAt(t, k) in {TICK, PULL_WAYPOINTS_AND_TICK} && (t == 1 ==> CommandAt(t, k) == TICK)
  {
  }

  lemma StartTick(w: World, k: nat) returns (run: seq<Action>, w': World)
    requires Resting(w) && k >= 2
    ensures Reaches(w, run, w', OrdersAt(w.orch.tickId + 1, k))
    ensures ServedUpTo(w', w', 0) && w'.orch.tickId == w.orch.tickId + 1 && |w'.vehicles| == |w.vehicles|
  {
    OrdersAtIs(w.orch.tickId + 1, k);
    var c := CommandAt(w.orch.tickId + 1, k);
    if (w.orch.tickId + 1) % k == 0 {
      w' := PushAndBroadcast(w, c);
      run := [PushBuffers([])] + [Broadcasting(c)];
    } else {
      w' := BroadcastStep(w, c);
      run := [Broadcasting(c)];
    }
  }

  lemma OneTick(w: World, k: nat) returns (run: seq<Action>, w': World)
    requires Resting(w) && k >= 2
    ensures Reaches(w, run, w', OrdersAt(w.orch.tickId + 1, k))
    ensures Resting(w') && w'.orch.tickId == w.orch.tickId + 1 && |w'.vehicles| == |w.vehicles|
  {
    var orders := OrdersAt(w.orch.tickId + 1, k);
    var start, w1 := StartTick(w, k);
    var tail, w2 := ServeAndFinish(w1);
    Chained(w, start, w1, orders, tail, w2, []);
    assert orders + [] == orders;
    run, w' := start + tail, w2;
  }

  lemma ServeAndFinish(w: World) returns (run: seq<Action>, w': World)
    requires ServedUpTo(w, w, 0) && |w.vehicles| > 0
    ensures Reaches(w, run, w', [])
    ensures Resting(w') && w'.orch.tickId == w.orch.tickId && |w'.vehicles| == |w.vehicles|
  {
    var serve, w1 := ServeUpTo(w, |w.vehicles|);
    assert ServedUpTo(w1, w1, |w1.vehicles|);
    var finish, w2 := FinishTick(w1);
    Chained(w, serve, w1, [], finish, w2, []);
    run, w' := serve + finish, w2;
  }

  lemma {:induction false} TicksUpTo(w: World, t: nat, k: nat) returns (run: seq<Action>, w': World)
    requires Resting(w) && w.orch.tickId == 0 && k >= 2
    ensures Reaches(w, run, w', Schedule(t, k))
    ensures Resting(w') && w'.orch.tickId == t && |w'.vehicles| == |w.vehicles|
  {
    if t == 0 {
      Nothing(w);
      run, w' := [], w;
    } else {
      var head, w1 := TicksUpTo(w, t - 1, k);
      run, w' := TickAfter(w, head, w1, t - 1, k);
    }
  }

  lemma TickAfter(w: World, head: seq<Action>, w1: World, t: nat, k: nat) returns (run: seq<Action>, w': World)
    requires k >= 2 && Reaches(w, head, w1, Schedule(t, k)) && Resting(w1) && w1.orch.tickId == t
    ensures Reaches(w, run, w', Schedule(t + 1, k))
    ensures Resting(w') && w'.orch.tickId == t + 1 && |w'.vehicles| == |w1.vehicles|
  {
    var tail, w2 := OneTick(w1, k);
    Chained(w, head, w1, Schedule(t, k), tail, w2, OrdersAt(t + 1, k));
    run, w' := head + tail, w2;
  }

  // ---- Registration ----

  /** The first `n` vehicles have registered and wait for their first push. */
  predicate Enlisted(w: World, n: nat) {
    && Inv(w) && w.orch.phase == AwaitRegistration && w.orch.tickId == 0 && w.server.isEdge && w.done == {}
    && w.server.numRegistered == n <= |w.vehicles|
    && forall v :: 0 <= v < n ==> w.vehicles[v].phase == Waiting(true)
  }

  /** Vehicle `n`, the next to register, is in this phase; those before it wait. */
  predicate Enlisting(w: World, n: nat, phase: Phase) {
    && Inv(w) && w.orch.phase == AwaitRegistration && w.orch.tickId == 0 && w.server.isEdge && w.done == {}
    && w.server.numRegistered == n + 1 <= |w.vehicles| && w.vehicles[n].phase == phase
    && forall v :: 0 <= v < n ==> w.vehicles[v].phase == Waiting(true)
  }

  lemma EnrollStep(w: World, n: nat) returns (w': World)
    requires Enlisted(w, n) && n < |w.vehicles|
    ensures Reaches(w, [Enroll(n)], w', []) && Enlisting(w', n, Registered) && |w'.vehicles| == |w.vehicles|
  {
    assert VehicleInv(w, n);
    StepKeepsInv(w, Enroll(n));
    Single(w, Enroll(n));
    w' := Apply(w, Enroll(n));
  }

  lemma CarlaMoves(w: World, n: nat)
    requires Shaped(w) && n < |w.vehicles| && w.vehicles[n].phase == Registered
    ensures var w' := Apply(w, SendCarla(n));
            && w'.vehicles == w.vehicles[n := w.vehicles[n].(phase := Joining)] && w'.done == w.done
            && w'.orch.phase == w.orch.phase && w'.orch.tickId == w.orch.tickId
            && w'.server.isEdge == w.server.isEdge && w'.server.numRegistered == w.server.numRegistered
  {
  }

  lemma CarlaEnlists(w: World, n: nat)
    requires Enlisting(w, n, Registered)
    ensures Enlisting(Apply(w, SendCarla(n)), n, Joining) && |Apply(w, SendCarla(n)).vehicles| == |w.vehicles|
  {
    StepKeepsInv(w, SendCarla(n));
    CarlaMoves(w, n);
    StillEnlisting(w, Apply(w, SendCarla(n)), n);
  }

  lemma StillEnlisting(w: World, w': World, n: nat)
    requires Enlisting(w, n, Registered) && Inv(w') && w'.done == w.done
    requires w'.vehicles == w.vehicles[n := w.vehicles[n].(phase := Joining)]
    requires w'.orch.phase == w.orch.phase && w'.orch.tickId == w.orch.tickId
    requires w'.server.isEdge == w.server.isEdge && w'.server.numRegistered == w.server.numRegistered
    ensures Enlisting(w', n, Joining)
  {
  }

  lemma CarlaStep(w: World, n: nat) returns (w': World)
    requires Enlisting(w, n, Registered)
    ensures Reaches(w, [SendCarla(n)], w', []) && Enlisting(w', n, Joining) && |w'.vehicles| == |w.vehicles|
  {
    CarlaEnlists(w, n);
    Single(w, SendCarla(n));
    w' := Apply(w, SendCarla(n));
  }

  lemma JoinStep(w: World, n: nat) returns (w': World)
    requires Enlisting(w, n, Joining)
    ensures Reaches(w, [EndJoin(n)], w', []) && Enlisted(w', n + 1) && |w'.vehicles| == |w.vehicles|
  {
    assert VehicleInv(w, n);
    StepKeepsInv(w, EndJoin(n));
    Single(w, EndJoin(n));
    w' := Apply(w, EndJoin(n));
  }

  lemma EnlistOne(w: World, n: nat) returns (run: seq<Action>, w': World)
    requires Enlisted(w, n) && n < |w.vehicles|
    ensures Reaches(w, run, w', []) && Enlisted(w', n + 1) && |w'.vehicles| == |w.vehicles|
  {
    var w1 := EnrollStep(w, n);
    var tail, w2 := CarlaAndJoin(w1, n);
    Chained(w, [Enroll(n)], w1, [], tail, w2, []);
    run, w' := [Enroll(n)] + tail, w2;
  }

  lemma CarlaAndJoin(w: World, n: nat) returns (run: seq<Action>, w': World)
    requires Enlisting(w, n, Registered)
    ensures Reaches(w, run, w', []) && Enlisted(w', n + 1) && |w'.vehicles| == |w.vehicles|
  {
    var w1 := CarlaStep(w, n);
    w' := JoinStep(w1, n);
    Chained(w, [SendCarla(n)], w1, [], [EndJoin(n)], w', []);
    run := [SendCarla(n)] + [EndJoin(n)];
  }

  lemma {:induction false} EnlistUpTo(w: World, n: nat) returns (run: seq<Action>, w': World)
    requires Enlisted(w, 0) && n <= |w.vehicles|
    ensures Reaches(w, run, w', []) && Enlisted(w', n) && |w'.vehicles| == |w.vehicles|
  {
    if n == 0 {
      Nothing(w);
      run, w' := [], w;
    } else {
      var head, w1 := EnlistUpTo(w, n - 1);
      var tail, w2 := EnlistOne(w1, n - 1);
      Chained(w, head, w1, [], tail, w2, []);
      run, w' := head + tail, w2;
    }
  }

  lemma RegistrationDone(w: World)
    requires Enlisted(w, |w.vehicles|) && |w.vehicles| > 0
    ensures Enabled(w, Proceed) && Inv(Apply(w, Proceed)) && Apply(w, Proceed).orch.phase == Draining(false)
    ensures SameBut(w, Apply(w, Proceed))
  {
    EveryoneEnlisted(w);
    assert 0 in w.replied && w.replied + w.done == w.replied;
    StepKeepsInv(w, Proceed);
  }

  lemma EveryoneEnlisted(w: World)
    requires Enlisted(w, |w.vehicles|)
    ensures w.replied == All(|w.vehicles|)
  {
    forall v: nat
      ensures v in w.replied <==> v in All(|w.vehicles|)
    {
      if v < |w.vehicles| { assert VehicleInv(w, v); }
    }
  }

  /** Any number of cars can register and be ready for the first tick. */
  lemma EdgeReady(c: nat) returns (run: seq<Action>, w': World)
    requires 0 < c <= MAX_CARS
    ensures Reaches(Start(c, true, false), run, w', []) && Resting(w') && w'.orch.tickId == 0 && |w'.vehicles| == c
  {
    var w := Start(c, true, false);
    StartInv(c, true, false);
    var head, w0 := EnlistUpTo(w, c);
    RegistrationDone(w0);
    Last(w, head, w0, [], Proceed);
    var w1 := Apply(w0, Proceed);
    DrainStep(w1);
    Last(w, head + [Proceed], w1, [], Drain);
    run, w' := head + [Proceed] + [Drain], Apply(w1, Drain);
  }

  /** For every number of cars and ticks and every edge period above one, some run follows the schedule that
      far, with every car still taking part. */
  lemma ScheduleIsRun(c: nat, t: nat, k: nat) returns (run: seq<Action>)
    requires 0 < c <= MAX_CARS && k >= 2
    ensures var w := Start(c, true, false);
            && Legal(w, run) && OrdersOf(run) == Schedule(t, k)
            && After(w, run).orch.phase == Ready && After(w, run).orch.tickId == t && After(w, run).done == {}
  {
    var reached, w' := TicksFromStart(c, t, k);
    run := reached;
  }

  lemma TicksFromStart(c: nat, t: nat, k: nat) returns (run: seq<Action>, w': World)
    requires 0 < c <= MAX_CARS && k >= 2
    ensures Reaches(Start(c, true, false), run, w', Schedule(t, k))
    ensures Resting(w') && w'.orch.tickId == t && |w'.vehicles| == c
  {
    var head, w0 := EdgeReady(c);
    var tail, w1 := TicksUpTo(w0, t, k);
    Chained(Start(c, true, false), head, w0, [], tail, w1, Schedule(t, k));
    assert [] + Schedule(t, k) == Schedule(t, k);
    run, w' := head + tail, w1;
  }

  /** So with more than 33 cars the queue does outgrow its 16-bit size: at the first tick `t` with
      2c + (t - 1)(c - 33) >= 32768, in this run; and then no number of drain calls empties it. */
  lemma BacklogReached(c: nat, t: nat, k: nat) returns (run: seq<Action>)
    requires 33 < c <= MAX_CARS && k >= 2 && t >= 1 && 2 * c + Surplus(c, t - 1) >= 0x8000
    ensures Legal(Start(c, true, false), run) && OrdersOf(run) == Schedule(t, k)
    ensures var now := After(Start(c, true, false), run);
            && now.orch.phase == Ready && now.orch.tickId == t && |now.server.pending| >= 0x8000
            && forall calls: nat :: Reports.Drained(now.server.pending, calls).0 != []
  {
    run := ScheduleIsRun(c, t, k);
    StartIsStart(c);
    BacklogAfterTick(Start(c, true, false), run, t, k);
    NeverEmpty(After(Start(c, true, false), run).server.pending);
  }

  lemma NeverEmpty(pending: seq<Report>)
    requires |pending| >= 0x8000
    ensures forall calls: nat :: Reports.Drained(pending, calls).0 != []
  {
    forall calls: nat
      ensures Reports.Drained(pending, calls).0 != []
    {
      Reports.DrainSticks(pending, calls);
    }
  }

  /** And registering them leaves all but 33 registrations behind. */
  lemma RegistrationLeavesRest(c: nat) returns (run: seq<Action>)
    requires 33 < c <= MAX_CARS
    ensures Legal(Start(c, true, false), run)
    ensures var now := After(Start(c, true, false), run);
            now.orch.phase == Ready && now.orch.tickId == 0 && |now.server.pending| == c - 33
  {
    var w := Start(c, true, false);
    var reached, w' := EdgeReady(c);
    run := reached;
    StartIsStart(c);
    RunQueue(w, run, 0, 2);
    assert Left(c, 0) == c - 33;
  }

  lemma StartIsStart(c: nat)
    requires c <= MAX_CARS
    ensures IsStart(Start(c, true, false))
  {
  }
}
