/** How far the orchestrator falls behind in an edge scenario: every tick queues one report per vehicle,
    but one drain call takes at most 33 (ecloud_server.cc, sim_api.py). */
module Backlog {
  import opened Messages
  import opened IndexSets
  import opened EcloudServer
  import opened Barrier
  import opened BarrierRuns
  import opened BarrierProgress
  import opened EdgeScript
  import opened EdgeScenario

  // ---- The numbers ----

  /** Reports left after tick `t` with `c` vehicles: registration queues `c` and drains once, tick 1 queues
      `c` and drains nothing, every later tick queues `c` and drains once. */
  function Left(c: nat, t: nat): nat {
    if t == 0 then c - BatchOf(c)
    else if t == 1 then Left(c, 0) + c
    else Left(c, t - 1) + c - BatchOf(Left(c, t - 1) + c)
  }

  /** `n` ticks' worth of what a drain call leaves behind. */
  function Surplus(c: nat, n: nat): nat
    requires c > 33
  {
    n * (c - 33)
  }

  lemma SurplusNext(c: nat, n: nat)
    requires c > 33 && n > 0
    ensures Surplus(c, n) == Surplus(c, n - 1) + (c - 33)
  {
  }

  /** With more than 33 vehicles the backlog grows by the rest every tick, and from the first tick at which
      the queue reaches 32768 it is never smaller again. */
  lemma {:induction false} LeftIs(c: nat, t: nat)
    requires 33 < c <= MAX_CARS && t >= 1
    ensures Left(c, t) >= 0x8000 <==> 2 * c + Surplus(c, t - 1) >= 0x8000
    ensures Left(c, t) < 0x8000 ==> Left(c, t) == c + Surplus(c, t)
  {
    SurplusNext(c, t);
    if t == 1 {
      assert Left(c, 0) == c - 33;
    } else {
      LeftIs(c, t - 1);
      SurplusNext(c, t - 1);
      BatchIs(Left(c, t - 1) + c);
    }
  }

  lemma BatchIs(n: nat)
    ensures 33 <= n < 0x8000 ==> BatchOf(n) == 33
    ensures n >= 0x8000 ==> n - BatchOf(n) >= 0x8000
    ensures BatchOf(n) <= 33
  {
  }

  // ---- Every run that follows the script ----

  /** The length of the report queue, as long as nobody reported done. */
  predicate QueueIs(w: World) {
    var n, t, len := |w.vehicles|, w.orch.tickId, |w.server.pending|;
    match w.orch.phase
    case AwaitRegistration => true
    case Draining(untilEmpty) => !untilEmpty && t != 1 && len == if t == 0 then n else Left(n, t - 1) + n
    case Ready => len == Left(n, t)
    case AwaitTick => t >= 1 && len == Left(n, t - 1) + |w.replied|
    case Ended => true
  }

  lemma RegistrationIsFirst(w: World, a: Action)
    requires Inv(w) && Enabled(w, a) && (a.Enroll? || a.SendCarla?)
    ensures w.orch.phase == AwaitRegistration && Apply(w, a).orch.phase == AwaitRegistration
  {
    assert VehicleInv(w, a.v);
    assert a.v in All(|w.vehicles|);
    RegistrationPhase(w, a);
  }

  lemma HandleQueue(w: World, v: nat)
    requires Inv(w) && CanHandle(w, v) && QueueIs(w) && w.server.isEdge && Handled(w, v).done == {}
    requires w.orch.tickId == 1 ==> w.server.command != PULL_WAYPOINTS_AND_TICK
    ensures QueueIs(Handled(w, v))
  {
    assert VehicleInv(w, v);
    HandleFinds(w, v);
    HandleFrame(w, v);
    assert v in UpdateStored(w, v).done <==> IsDone(w.vehicles[v].phase.update.vehicleState);
    HandleQueued(w, v);
    assert Handled(w, v).replied == w.replied + {v};
  }

  lemma HandleQueued(w: World, v: nat)
    requires CanHandle(w, v) && w.server.isEdge
    ensures |Handled(w, v).server.pending| == |w.server.pending| + 1 && Handled(w, v).orch.tickId == w.orch.tickId
    ensures Handled(w, v).server.numCars == w.server.numCars && Handled(w, v).orch.phase == w.orch.phase
  {
  }

  lemma AllReplied(w: World)
    requires Inv(w) && Enabled(w, Proceed) && w.done == {}
    ensures |w.replied| == |w.vehicles|
    ensures w.orch.phase == AwaitRegistration ==> w.orch.tickId == 0 && |w.server.pending| == |w.replied|
  {
    assert w.replied + {} == w.replied;
  }

  lemma ProceedQueue(w: World)
    requires Enabled(w, Proceed) && QueueIs(w) && w.server.command != REQUEST_DEBUG_INFO
    requires |w.replied| == |w.vehicles|
    requires w.orch.phase == AwaitRegistration ==> w.orch.tickId == 0 && |w.server.pending| == |w.replied|
    ensures QueueIs(Proceeded(w))
  {
  }

  lemma DrainQueue(w: World)
    requires Inv(w) && Enabled(w, Drain) && QueueIs(w)
    ensures QueueIs(DrainedOnce(w))
  {
  }

  lemma BroadcastQueue(w: World, c: Command)
    requires Inv(w) && Enabled(w, Broadcasting(c)) && QueueIs(w)
    ensures QueueIs(Ticked(w, c))
  {
  }

  lemma OrchQueue(w: World, a: Action)
    requires Inv(w) && Enabled(w, a) && QueueIs(w) && w.done == {}
    requires w.server.command != REQUEST_DEBUG_INFO
    requires a.Proceed? || a.Drain? || a.PushBuffers? || a.Broadcasting? || a.Finish?
    ensures QueueIs(Apply(w, a))
  {
    match a {
      case Proceed => AllReplied(w); ProceedQueue(w);
      case Drain => DrainQueue(w);
      case Broadcasting(c) => BroadcastQueue(w, c);
      case _ =>
    }
  }

  /** The commands that follow the schedule, before the debug request. */
  predicate Scheduled(w: World) {
    w.server.command in {TICK, PULL_WAYPOINTS_AND_TICK} && (w.orch.tickId == 1 ==> w.server.command == TICK)
  }

  lemma QueueStep(w: World, a: Action)
    requires Inv(w) && Enabled(w, a) && QueueIs(w) && w.server.isEdge && Apply(w, a).done == {} && Scheduled(w)
    ensures w.done == {} && QueueIs(Apply(w, a))
  {
    DoneGrows(w, a);
    if Private(a) {
      PrivateQueue(w, a);
    } else if a.Handle? {
      HandleQueue(w, a.v);
    } else if a.Enroll? || a.SendCarla? {
      RegistrationIsFirst(w, a);
    } else {
      OrchQueue(w, a);
    }
  }

  lemma PrivateQueue(w: World, a: Action)
    requires Enabled(w, a) && QueueIs(w) && Private(a)
    ensures QueueIs(Apply(w, a))
  {
    PrivateFrame(w, a);
    PrivateReplied(w, a);
  }

  lemma DoneGrows(w: World, a: Action)
    requires Enabled(w, a)
    ensures w.done <= Apply(w, a).done
  {
  }

  lemma PrivateReplied(w: World, a: Action)
    requires Enabled(w, a) && Private(a)
    ensures Apply(w, a).replied == w.replied
  {
  }

  lemma RegistrationPhase(w: World, a: Action)
    requires Enabled(w, a) && (a.Enroll? || a.SendCarla?)
    ensures Apply(w, a).orch.phase == w.orch.phase
  {
  }

  lemma BroadcastScheduled(w: World, c: Command, t: nat, k: nat)
    requires k >= 2 && c == CommandAt(t, k) && t == w.orch.tickId + 1
    ensures Scheduled(Ticked(w, c))
  {
  }

  lemma StartScheduled(w: World)
    requires IsStart(w)
    ensures Scheduled(w)
  {
  }

  /** Commands stay scheduled while the orders follow the schedule with an edge period above one. */
  lemma {:induction false} RunScheduled(w: World, run: seq<Action>, n: nat, k: nat)
    requires IsStart(w) && Legal(w, run) && k >= 2 && OrdersOf(run) <= Schedule(n, k)
    ensures After(w, run).orch.phase != Ended ==> Scheduled(After(w, run))
    decreases |run|
  {
    if run == [] {
      StartScheduled(w);
    } else {
      var front, a := run[..|run| - 1], run[|run| - 1];
      assert OrdersOf(front) <= OrdersOf(run);
      RunScheduled(w, front, n, k);
      if a.Broadcasting? {
        RunRemembers(w, run);
        ScheduleCommand(n, k, OrdersOf(run), a.command);
        BroadcastScheduled(After(w, front), a.command, After(w, front).orch.tickId + 1, k);
      } else {
        CommandKept(After(w, front), a);
      }
    }
  }

  lemma CommandKept(w: World, a: Action)
    requires Enabled(w, a) && !a.Broadcasting?
    ensures Apply(w, a).orch.tickId == w.orch.tickId
    ensures Apply(w, a).orch.phase != Ended ==> Apply(w, a).server.command == w.server.command && w.orch.phase != Ended
  {
  }

  lemma {:induction false} RunQueue(w: World, run: seq<Action>, n: nat, k: nat)
    requires IsStart(w) && w.server.isEdge && Legal(w, run) && k >= 2 && OrdersOf(run) <= Schedule(n, k)
    requires After(w, run).done == {}
    ensures QueueIs(After(w, run))
    decreases |run|
  {
    if run != [] {
      var front, a := run[..|run| - 1], run[|run| - 1];
      assert OrdersOf(front) <= OrdersOf(run);
      DoneGrows(After(w, front), a);
      RunQueue(w, front, n, k);
      RunScheduled(w, front, n, k);
      IsStartInv(w);
      RunKeepsInv(w, front);
      EdgeStays(w, front);
      if After(w, front).orch.phase != Ended {
        QueueStep(After(w, front), a);
      } else {
        EndedStays(After(w, front), a);
      }
    }
  }

  lemma EndedStays(w: World, a: Action)
    requires Inv(w) && Enabled(w, a) && w.orch.phase == Ended
    ensures Apply(w, a).orch.phase == Ended
  {
    if a.Handle? { HandleFinds(w, a.v); }
  }

  lemma {:induction false} CountStays(w: World, run: seq<Action>)
    requires Legal(w, run)
    ensures |After(w, run).vehicles| == |w.vehicles|
    decreases |run|
  {
    if run != [] {
      CountStays(w, run[..|run| - 1]);
      StepKeepsCount(After(w, run[..|run| - 1]), run[|run| - 1]);
    }
  }

  /** In every run that follows the script with more than 33 vehicles, none of which reported done: after
      tick `t` the queue has grown past what its 16-bit size can say exactly when 2c + (t - 1)(c - 33)
      reaches 32768; before that it holds c + t(c - 33) reports. */
  lemma BacklogAfterTick(w: World, run: seq<Action>, n: nat, k: nat)
    requires IsStart(w) && w.server.isEdge && |w.vehicles| > 33 && Legal(w, run)
    requires k >= 2 && OrdersOf(run) <= Schedule(n, k)
    requires After(w, run).done == {} && After(w, run).orch.phase == Ready && After(w, run).orch.tickId >= 1
    ensures var c, t, len := |w.vehicles|, After(w, run).orch.tickId, |After(w, run).server.pending|;
            && (len >= 0x8000 <==> 2 * c + Surplus(c, t - 1) >= 0x8000)
            && (len < 0x8000 ==> len == c + Surplus(c, t))
  {
    RunQueue(w, run, n, k);
    CountStays(w, run);
    LeftIs(|w.vehicles|, After(w, run).orch.tickId);
  }
}
