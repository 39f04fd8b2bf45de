/** Runs of the barrier that follow the edge scenario's script: whose waypoints a vehicle reads
    (vehiclesim.py, ecloud_server.cc), and what an edge period of one does. */
module EdgeScenario {
  import opened Messages
  import opened IndexSets
  import opened EcloudServer
  import opened Barrier
  import opened BarrierRuns
  import opened BarrierProgress
  import opened EdgeScript

  // ---- The orders of a run ----

  function OrderOf(a: Action): seq<Order> {
    match a
    case PushBuffers(_) => [PushSet]
    case Broadcasting(c) => [Send(c)]
    case _ => []
  }

  function OrdersOf(run: seq<Action>): seq<Order> {
    if run == [] then [] else OrdersOf(run[..|run| - 1]) + OrderOf(run[|run| - 1])
  }

  /** The buffers pushed last. */
  function LastSet(run: seq<Action>): seq<WaypointBuffer> {
    if run == [] then []
    else if run[|run| - 1].PushBuffers? then run[|run| - 1].buffers
    else LastSet(run[..|run| - 1])
  }

  /** What the state knows of the orders so far: the tick's number, the waypoints of the last push, and, in
      an open tick, the last order, which was that tick. */
  predicate Remembers(w: World, run: seq<Action>) {
    && w.server.waypoints == LastSet(run) && w.orch.tickId == TicksIn(OrdersOf(run))
    && (w.orch.phase == AwaitTick ==> EndsWith(OrdersOf(run), Send(w.server.command)))
  }

  lemma OrderStep(w: World, a: Action)
    requires Enabled(w, a)
    ensures var w' := Apply(w, a);
            && w'.server.waypoints == (if a.PushBuffers? then a.buffers else w.server.waypoints)
            && w'.orch.tickId == w.orch.tickId + TicksIn(OrderOf(a))
            && (w'.orch.phase == AwaitTick ==>
                  if OrderOf(a) == [] then w.orch.phase == AwaitTick && w'.server.command == w.server.command
                  else a == Broadcasting(w'.server.command))
  {
    assert forall o: Order :: [o][..0] == [];
  }

  lemma {:induction false} RunRemembers(w: World, run: seq<Action>)
    requires IsStart(w) && Legal(w, run)
    ensures Remembers(After(w, run), run)
    decreases |run|
  {
    if run != [] {
      var front, a := run[..|run| - 1], run[|run| - 1];
      RunRemembers(w, front);
      StillRemembers(After(w, front), front, a);
      assert front + [a] == run;
    }
  }

  lemma StillRemembers(w: World, front: seq<Action>, a: Action)
    requires Enabled(w, a) && Remembers(w, front)
    ensures Remembers(Apply(w, a), front + [a])
  {
    OrderStep(w, a);
    SendsNext(OrdersOf(front), OrderOf(a));
    OrdersNext(front, a);
  }

  lemma OrdersNext(front: seq<Action>, a: Action)
    ensures OrdersOf(front + [a]) == OrdersOf(front) + OrderOf(a)
    ensures LastSet(front + [a]) == if a.PushBuffers? then a.buffers else LastSet(front)
  {
    assert (front + [a])[..|front|] == front;
  }

  lemma CommandStep(w: World, a: Action)
    requires Enabled(w, a) && Apply(w, a).orch.phase != Ended
    ensures w.orch.phase != Ended
    ensures OrderOf(a) == [] ==> Apply(w, a).server.command == w.server.command
    ensures forall c: Command :: OrderOf(a) == [Send(c)] ==> Apply(w, a).server.command == c
    ensures OrderOf(a) == [] || OrderOf(a) == [PushSet] || exists c: Command :: OrderOf(a) == [Send(c)]
  {
  }

  /** Until the scenario is ended the server's command is that of the last order, if that was a tick. */
  lemma {:induction false} LastSendIsCommand(w: World, run: seq<Action>, c: Command)
    requires IsStart(w) && Legal(w, run) && EndsWith(OrdersOf(run), Send(c)) && After(w, run).orch.phase != Ended
    ensures After(w, run).server.command == c
    decreases |run|
  {
    var front, a := run[..|run| - 1], run[|run| - 1];
    CommandStep(After(w, front), a);
    SendsNext(OrdersOf(front), OrderOf(a));
    if OrderOf(a) == [] {
      assert OrdersOf(run) == OrdersOf(front);
      LastSendIsCommand(w, front, c);
    }
  }

  /** In a run that follows the script, an open tick is a waypoint tick exactly when `k` divides its number
      (the debug request at the end aside). */
  lemma CommandFollowsScript(w: World, run: seq<Action>, n: nat, k: nat)
    requires IsStart(w) && Legal(w, run) && k >= 1 && OrdersOf(run) <= Script(n, k)
    requires After(w, run).orch.phase == AwaitTick
    ensures var now := After(w, run);
            && EndsWith(OrdersOf(run), Send(now.server.command))
            && (now.server.command == CommandAt(now.orch.tickId, k)
                || (now.server.command == REQUEST_DEBUG_INFO && now.orch.tickId == n + 1))
  {
    RunRemembers(w, run);
    ScriptCommand(n, k, OrdersOf(run), After(w, run).server.command);
    ScheduleSends(n, k);
    SendsNext(Schedule(n, k), [Send(REQUEST_DEBUG_INFO)]);
    assert [Send(REQUEST_DEBUG_INFO)][..0] == [];
  }

  // ---- Whose waypoints a vehicle reads ----

  /** The run's last two orders are the waypoint push `run[j]` and the waypoint tick `run[m]`. */
  predicate PushedFor(run: seq<Action>, j: nat, m: nat) {
    && j < m < |run| && run[j].PushBuffers? && run[m] == Broadcasting(PULL_WAYPOINTS_AND_TICK)
    && forall i :: j < i < |run| && i != m ==> OrderOf(run[i]) == []
  }

  /** The run's last order is the waypoint push `run[j]`. */
  predicate LastPushed(run: seq<Action>, j: nat) {
    j < |run| && run[j].PushBuffers? && forall i :: j < i < |run| ==> OrderOf(run[i]) == []
  }

  lemma {:induction false} FindPush(run: seq<Action>) returns (j: nat)
    requires EndsWith(OrdersOf(run), PushSet)
    ensures LastPushed(run, j) && run[j].buffers == LastSet(run)
  {
    var front := run[..|run| - 1];
    if run[|run| - 1].PushBuffers? {
      j := |run| - 1;
    } else {
      assert OrderOf(run[|run| - 1]) == [] && OrdersOf(run) == OrdersOf(front);
      j := FindPush(front);
      assert forall i :: 0 <= i < |front| ==> front[i] == run[i];
    }
  }

  lemma {:induction false} FindTick(run: seq<Action>) returns (j: nat, m: nat)
    requires EndsWith(OrdersOf(run), Send(PULL_WAYPOINTS_AND_TICK))
    requires |OrdersOf(run)| >= 2 && OrdersOf(run)[|OrdersOf(run)| - 2] == PushSet
    ensures PushedFor(run, j, m) && run[j].buffers == LastSet(run)
  {
    var front, a := run[..|run| - 1], run[|run| - 1];
    if OrderOf(a) == [] {
      assert OrdersOf(run) == OrdersOf(front);
      j, m := FindTick(front);
      PushedForCarries(run, j, m);
    } else {
      assert a == Broadcasting(PULL_WAYPOINTS_AND_TICK);
      m := |run| - 1;
      j := FindPush(front);
      assert forall i :: 0 <= i < |front| ==> front[i] == run[i];
    }
  }

  lemma PushedForCarries(run: seq<Action>, j: nat, m: nat)
    requires run != [] && OrderOf(run[|run| - 1]) == [] && PushedFor(run[..|run| - 1], j, m)
    ensures PushedFor(run, j, m)
  {
    assert forall i :: 0 <= i < |run| - 1 ==> run[..|run| - 1][i] == run[i];
  }

  /** A live vehicle fetches during the tick whose id it has read, and that tick is a waypoint tick. */
  lemma FetchIsInTick(w: World, v: nat)
    requires Inv(w) && Enabled(w, Fetch(v)) && v !in w.done
    ensures w.orch.phase == AwaitTick && w.server.command == PULL_WAYPOINTS_AND_TICK
    ensures w.vehicles[v].tickId == w.orch.tickId && w.orch.tickId >= 2
  {
    assert VehicleInv(w, v) && v in All(|w.vehicles|);
  }

  /** Waypoint freshness, in every run that follows the script: what a live vehicle fetches for tick `t` is
      its first buffer in the set that was pushed for that very tick: no order came between that push and
      the tick, and none since. */
  lemma WaypointsAreFresh(w: World, run: seq<Action>, n: nat, k: nat, v: nat)
    requires IsStart(w) && w.server.isEdge && Legal(w, run) && k >= 1 && OrdersOf(run) <= Script(n, k)
    requires Enabled(After(w, run), Fetch(v)) && v !in After(w, run).done
    ensures var now := After(w, run);
            && now.vehicles[v].tickId == now.orch.tickId && now.orch.tickId % k == 0
            && exists j: nat, m: nat :: PushedFor(run, j, m)
                 && Apply(now, Fetch(v)).vehicles[v].buffers ==
                     now.vehicles[v].buffers + [GetWaypoints(run[j].buffers, v)]
  {
    var now, orders := After(w, run), OrdersOf(run);
    IsStartInv(w);
    RunKeepsInv(w, run);
    FetchIsInTick(now, v);
    CommandFollowsScript(w, run, n, k);
    RunRemembers(w, run);
    PushRightBeforeWaypointTick(n, k, |orders| - 1);
    assert Script(n, k)[|orders| - 1] == Schedule(n, k)[|orders| - 1]
        && orders[|orders| - 2] == Script(n, k)[|orders| - 2];
    var j, m := FindTick(run);
    EdgeStays(w, run);
    FetchReads(now, v);
  }

  lemma {:induction false} EdgeStays(w: World, run: seq<Action>)
    requires Legal(w, run)
    ensures After(w, run).server.isEdge == w.server.isEdge && After(w, run).server.numCars == w.server.numCars
    decreases |run|
  {
    if run != [] {
      EdgeStays(w, run[..|run| - 1]);
      EdgeStep(After(w, run[..|run| - 1]), run[|run| - 1]);
    }
  }

  lemma EdgeStep(w: World, a: Action)
    requires Enabled(w, a)
    ensures Apply(w, a).server.isEdge == w.server.isEdge && Apply(w, a).server.numCars == w.server.numCars
  {
  }

  lemma FetchReads(w: World, v: nat)
    requires Enabled(w, Fetch(v)) && w.server.isEdge
    ensures Apply(w, Fetch(v)).vehicles[v].buffers == w.vehicles[v].buffers + [GetWaypoints(w.server.waypoints, v)]
  {
  }

  // ---- Edge period one ----

  /** With period 1 the first tick is a waypoint tick, which no vehicle answers with a counted update: no
      run that follows the script ever gets beyond it. */
  lemma {:induction false} PeriodOneNeverCompletes(w: World, run: seq<Action>, n: nat)
    requires IsStart(w) && w.server.numCars > 0 && Legal(w, run) && n >= 1 && OrdersOf(run) <= Script(n, 1)
    ensures After(w, run).orch.tickId >= 1 ==> Doomed(After(w, run)) && After(w, run).orch.tickId == 1
    decreases |run|
  {
    if run != [] {
      var front, a := run[..|run| - 1], run[|run| - 1];
      assert OrdersOf(front) <= OrdersOf(run);
      PeriodOneNeverCompletes(w, front, n);
      IsStartInv(w);
      RunKeepsInv(w, front);
      EdgeStays(w, front);
      OrderStep(After(w, front), a);
      if After(w, front).orch.tickId >= 1 {
        OnlyVehiclesStep(After(w, front), a);
        DoomedStep(After(w, front), a);
        assert OrderOf(a) == [];
      } else if a.Broadcasting? {
        RunKeepsInv(w, run);
        CommandFollowsScript(w, run, n, 1);
        FirstPullDooms(After(w, front), a.command);
      }
    }
  }

  lemma FirstPullDooms(w: World, c: Command)
    requires Inv(w) && w.orch.tickId == 0 && Enabled(w, Broadcasting(c)) && w.server.numCars > 0
    requires c == PULL_WAYPOINTS_AND_TICK
    ensures Doomed(Ticked(w, c))
  {
    assert 0 in All(|w.vehicles|);
    assert Stuck(Ticked(w, c), 0);
  }

  /** Taking one more enabled action. */
  lemma Extend(w: World, run: seq<Action>, a: Action) returns (more: seq<Action>)
    requires Legal(w, run) && Enabled(After(w, run), a)
    ensures more == run + [a] && Legal(w, more) && After(w, more) == Apply(After(w, run), a)
    ensures OrdersOf(more) == OrdersOf(run) + OrderOf(a)
  {
    more := run + [a];
    Snoc(w, run, a);
    assert more[..|run|] == run;
  }

  lemma PushThenPull(w: World)
    requires Shaped(w) && w.orch.phase == Ready
    ensures Enabled(w, PushBuffers([])) && Enabled(Apply(w, PushBuffers([])), Broadcasting(PULL_WAYPOINTS_AND_TICK))
    ensures Apply(Apply(w, PushBuffers([])), Broadcasting(PULL_WAYPOINTS_AND_TICK)).orch.tickId == w.orch.tickId + 1
  {
  }

  /** Such a run exists: a car registers, the script pushes waypoints and starts its first tick. */
  lemma PeriodOneHangs() returns (run: seq<Action>)
    ensures Legal(Start(1, true, false), run) && OrdersOf(run) == Schedule(1, 1)
    ensures After(Start(1, true, false), run).orch.tickId == 1 && Doomed(After(Start(1, true, false), run))
  {
    var w := Start(1, true, false);
    var ready := EdgeCarReady();
    PushThenPull(After(w, ready));
    var pushed := Extend(w, ready, PushBuffers([]));
    run := Extend(w, pushed, Broadcasting(PULL_WAYPOINTS_AND_TICK));
    PeriodOneOrders(OrdersOf(run));
    PeriodOneNeverCompletes(w, run, 1);
  }

  lemma PeriodOneOrders(orders: seq<Order>)
    requires orders == [] + [PushSet] + [Send(PULL_WAYPOINTS_AND_TICK)]
    ensures orders == Schedule(1, 1) && orders <= Script(1, 1)
  {
    assert Schedule(0, 1) == [] && Schedule(1, 1) == [PushSet, Send(PULL_WAYPOINTS_AND_TICK)];
  }

  lemma EdgeCarReady() returns (run: seq<Action>)
    ensures Legal(Start(1, true, false), run) && OrdersOf(run) == []
    ensures Shaped(After(Start(1, true, false), run))
    ensures After(Start(1, true, false), run).orch.phase == Ready && After(Start(1, true, false), run).orch.tickId == 0
  {
    var w := Start(1, true, false);
    run := Extend(w, [], Enroll(0));
    run := Extend(w, run, SendCarla(0));
    run := Extend(w, run, Proceed);
    run := Extend(w, run, Drain);
  }
}
