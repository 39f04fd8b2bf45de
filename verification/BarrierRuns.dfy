/** Properties of every run of the tick barrier. */
module BarrierRuns {
  import opened Messages
  import opened IndexSets
  import opened EcloudServer
  import opened PushQueue
  import opened VehicleSim
  import opened Barrier

  /** A run is a starting state and the actions taken from it. */
  predicate Legal(w: World, run: seq<Action>)
    decreases |run|, 0
  {
    run == [] || (Legal(w, run[..|run| - 1]) && Enabled(After(w, run[..|run| - 1]), run[|run| - 1]))
  }

  function After(w: World, run: seq<Action>): World
    requires Legal(w, run)
    decreases |run|, 1
  {
    if run == [] then w else Apply(After(w, run[..|run| - 1]), run[|run| - 1])
  }

  lemma {:induction false} PrefixLegal(w: World, run: seq<Action>, k: nat)
    requires Legal(w, run) && k <= |run|
    ensures Legal(w, run[..k])
    decreases |run|
  {
    if k < |run| {
      assert run[..|run| - 1][..k] == run[..k];
      PrefixLegal(w, run[..|run| - 1], k);
    } else {
      assert run[..k] == run;
    }
  }

  lemma {:induction false} RunKeepsInv(w: World, run: seq<Action>)
    requires Inv(w) && Legal(w, run)
    ensures Inv(After(w, run)) && |After(w, run).vehicles| == |w.vehicles|
    decreases |run|
  {
    if run != [] {
      RunKeepsInv(w, run[..|run| - 1]);
      StepKeepsInv(After(w, run[..|run| - 1]), run[|run| - 1]);
      StepKeepsCount(After(w, run[..|run| - 1]), run[|run| - 1]);
    }
  }

  lemma StepKeepsCount(w: World, a: Action)
    requires Enabled(w, a)
    ensures |Apply(w, a).vehicles| == |w.vehicles|
  {
  }

  // ---- Barrier safety ----

  /** The update that the `j`-th action of the run hands to the server, if it is such an action. */
  predicate Sends(w: World, run: seq<Action>, j: nat, v: nat, state: VehicleState)
    requires Legal(w, run)
  {
    j < |run| && run[j] == Handle(v) && Legal(w, run[..j]) &&
    v < |After(w, run[..j]).vehicles| && After(w, run[..j]).vehicles[v].phase.Sending? &&
    After(w, run[..j]).vehicles[v].phase.update.vehicleState == state
  }

  predicate NoTickAfter(run: seq<Action>, j: nat) {
    forall i :: j < i < |run| ==> !run[i].Broadcasting?
  }

  ghost predicate RepliedThisTick(w: World, run: seq<Action>, v: nat)
    requires Legal(w, run)
  {
    exists j: nat :: Sends(w, run, j, v, TICK_OK) && NoTickAfter(run, j)
  }

  ghost predicate ReportedDone(w: World, run: seq<Action>, v: nat)
    requires Legal(w, run)
  {
    exists j: nat, state :: Sends(w, run, j, v, state) && IsDone(state)
  }

  lemma SendsInPrefix(w: World, run: seq<Action>, j: nat, v: nat, state: VehicleState)
    requires Legal(w, run) && run != [] && Sends(w, run[..|run| - 1], j, v, state)
    ensures Sends(w, run, j, v, state)
  {
    assert run[..|run| - 1][..j] == run[..j];
  }

  predicate IsStart(w: World) {
    0 <= w.server.numCars <= MAX_CARS && w == Start(w.server.numCars, w.server.isEdge, w.control)
  }

  lemma IsStartInv(w: World)
    requires IsStart(w)
    ensures Inv(w)
  {
    StartInv(w.server.numCars, w.server.isEdge, w.control);
  }

  /** How one step changes the history fields. */
  lemma HistoryStep(w: World, a: Action, v: nat)
    requires Enabled(w, a)
    ensures v in Apply(w, a).done && v !in w.done ==>
              a == Handle(v) && IsDone(w.vehicles[v].phase.update.vehicleState)
    ensures v in Apply(w, a).replied && v !in w.replied ==>
              a == SendCarla(v) || (a == Handle(v) && w.vehicles[v].phase.update.vehicleState == TICK_OK)
    ensures a.Broadcasting? ==> Apply(w, a).replied == {}
  {
  }

  lemma TickStep(w: World, a: Action)
    requires Enabled(w, a)
    ensures Apply(w, a).orch.tickId == if a.Broadcasting? then w.orch.tickId + 1 else w.orch.tickId
  {
  }

  /** The history fields mean what they say: they are backed by actions of the run. */
  lemma {:induction false} DoneIsReal(w: World, run: seq<Action>, v: nat)
    requires IsStart(w) && Legal(w, run)
    ensures v in After(w, run).done ==> ReportedDone(w, run, v)
    decreases |run|
  {
    if run != [] && v in After(w, run).done {
      var n := |run| - 1;
      var front := run[..n];
      DoneIsReal(w, front, v);
      HistoryStep(After(w, front), run[n], v);
      if v in After(w, front).done {
        var j: nat, state :| Sends(w, front, j, v, state) && IsDone(state);
        SendsInPrefix(w, run, j, v, state);
      } else {
        assert Sends(w, run, n, v, After(w, front).vehicles[v].phase.update.vehicleState);
      }
    }
  }

  /** Registrations come before the first tick. */
  lemma CarlaBeforeTicks(w: World, run: seq<Action>, a: Action)
    requires IsStart(w) && Legal(w, run) && Enabled(After(w, run), a)
    ensures a.SendCarla? ==> After(w, run).orch.tickId == 0
  {
    if a.SendCarla? {
      IsStartInv(w);
      RunKeepsInv(w, run);
      CarlaFinds(After(w, run), a.v);
    }
  }

  lemma ReplyCarries(w: World, run: seq<Action>, v: nat)
    requires Legal(w, run) && run != [] && !run[|run| - 1].Broadcasting?
    requires RepliedThisTick(w, run[..|run| - 1], v)
    ensures RepliedThisTick(w, run, v)
  {
    var j: nat :| Sends(w, run[..|run| - 1], j, v, TICK_OK) && NoTickAfter(run[..|run| - 1], j);
    SendsInPrefix(w, run, j, v, TICK_OK);
    NoTickExtends(run, j);
  }

  lemma NoTickExtends(run: seq<Action>, j: nat)
    requires run != [] && !run[|run| - 1].Broadcasting? && NoTickAfter(run[..|run| - 1], j)
    ensures NoTickAfter(run, j)
  {
    forall i | j < i < |run|
      ensures !run[i].Broadcasting?
    {
      if i < |run| - 1 {
        assert run[..|run| - 1][i] == run[i];
      }
    }
  }

  lemma ReplyStarts(w: World, run: seq<Action>, v: nat)
    requires Legal(w, run) && run != [] && run[|run| - 1] == Handle(v)
    requires After(w, run[..|run| - 1]).vehicles[v].phase.update.vehicleState == TICK_OK
    ensures RepliedThisTick(w, run, v)
  {
    assert Sends(w, run, |run| - 1, v, TICK_OK) && NoTickAfter(run, |run| - 1);
  }

  lemma {:induction false} RepliedIsReal(w: World, run: seq<Action>, v: nat)
    requires IsStart(w) && Legal(w, run)
    ensures v in After(w, run).replied && After(w, run).orch.tickId >= 1 ==> RepliedThisTick(w, run, v)
    decreases |run|
  {
    if run != [] {
      var front, a := run[..|run| - 1], run[|run| - 1];
      RepliedIsReal(w, front, v);
      HistoryStep(After(w, front), a, v);
      TickStep(After(w, front), a);
      CarlaBeforeTicks(w, front, a);
      if v in After(w, run).replied && After(w, run).orch.tickId >= 1 {
        if v in After(w, front).replied {
          ReplyCarries(w, run, v);
        } else {
          ReplyStarts(w, run, v);
        }
      }
    }
  }

  /** Barrier safety: when a run's last action pushes "tick complete", every vehicle has sent TICK_OK
      since the last tick, or reported done at some point. */
  lemma BarrierSafety(w: World, run: seq<Action>)
    requires IsStart(w)
    requires Legal(w, run) && run != [] && After(w, run).orch.tickId >= 1
    requires After(w, run).labels != After(w, run[..|run| - 1]).labels
    ensures forall v: nat :: v < |w.vehicles| ==> RepliedThisTick(w, run, v) || ReportedDone(w, run, v)
  {
    IsStartInv(w);
    RunKeepsInv(w, run[..|run| - 1]);
    PusherIsHandler(After(w, run[..|run| - 1]), run[|run| - 1]);
    forall v: nat | v < |w.vehicles|
      ensures RepliedThisTick(w, run, v) || ReportedDone(w, run, v)
    {
      AccountedFor(w, run, v);
    }
  }

  lemma AccountedFor(w: World, run: seq<Action>, v: nat)
    requires IsStart(w) && Legal(w, run) && After(w, run).orch.tickId >= 1 && v < |w.vehicles|
    requires After(w, run).replied + After(w, run).done == All(|w.vehicles|)
    ensures RepliedThisTick(w, run, v) || ReportedDone(w, run, v)
  {
    assert v in All(|w.vehicles|);
    DoneIsReal(w, run, v);
    RepliedIsReal(w, run, v);
  }

  /** Only the two handlers push to the orchestrator, and only when everyone is accounted for. */
  lemma PusherIsHandler(w: World, a: Action)
    requires Inv(w) && Enabled(w, a) && Apply(w, a).labels != w.labels
    ensures a.Handle? || a.SendCarla?
    ensures Apply(w, a).labels == w.labels + [Label(w.orch.tickId)]
    ensures Complete(Apply(w, a).replied, Apply(w, a).done, |w.vehicles|)
    ensures w.orch.push.que == [] && |Apply(w, a).orch.push.que| == 1
  {
    StepKeepsInv(w, a);
    match a {
      case Handle(v) => HandleFinds(w, v); HandleTest(w, v); HandleNotifies(w, v);
      case SendCarla(v) => CarlaFinds(w, v); CarlaTest(w, v);
      case Enroll(v) => EnrollPushesNothing(w, v);
      case _ =>
    }
  }

  /** Exactly once, and not late: the handler that makes everyone accounted for pushes, no other. */
  lemma CompletionExactlyWhenAllIn(w: World, v: nat)
    requires Inv(w) && Enabled(w, Handle(v))
    ensures var w' := Apply(w, Handle(v));
            && !Complete(w.replied, w.done, |w.vehicles|)
            && (w'.labels == w.labels + [Label(w.orch.tickId)] <==> Complete(w'.replied, w'.done, |w.vehicles|))
            && (w'.labels == w.labels <==> !Complete(w'.replied, w'.done, |w.vehicles|))
  {
    HandleFinds(w, v);
    HandleTest(w, v);
    assert v in All(|w.vehicles|);
  }

  /** Every state of a run: one completion per finished tick, the current one at most once. */
  lemma CompletionsSoFar(w: World, run: seq<Action>)
    requires IsStart(w) && Legal(w, run)
    ensures var now := After(w, run);
            && (now.labels == Labels(now.orch.tickId) || now.labels == Labels(now.orch.tickId + 1))
            && (now.orch.phase in {Ready, Ended} ==> now.labels == Labels(now.orch.tickId + 1))
  {
    IsStartInv(w);
    RunKeepsInv(w, run);
    LabelsNow(After(w, run));
  }

  lemma LabelsNow(w: World)
    requires Inv(w)
    ensures w.labels == Labels(w.orch.tickId) || w.labels == Labels(w.orch.tickId + 1)
    ensures w.orch.phase in {Ready, Ended} ==> w.labels == Labels(w.orch.tickId + 1)
  {
  }

  /** The ids pushed to the orchestrator are -1, 0, 2, 3, ...: they strictly increase. */
  lemma LabelsIncrease(n: nat, i: nat, j: nat)
    requires i < j < n
    ensures Labels(n)[i] < Labels(n)[j]
    ensures Labels(n)[j] == if j == 1 then 0 else j
  {
  }

  // ---- Lockstep ----

  predicate Live(w: World, v: nat) {
    v < |w.vehicles| && v !in w.done && w.vehicles[v].phase != Crashed
  }

  /** A live vehicle is at the current tick or the one before, and has at most one push under way. */
  lemma Lockstep(w: World, v: nat)
    requires Inv(w) && w.orch.phase != Ended && w.orch.tickId >= 1 && Live(w, v)
    ensures w.vehicles[v].tickId == Label(w.orch.tickId)
            || (w.orch.tickId >= 2 && w.vehicles[v].tickId == Label(w.orch.tickId - 1))
    ensures |w.mail[v]| + |w.vehicles[v].push.que| <= 1
    ensures forall m :: m in w.mail[v] + w.vehicles[v].push.que ==>
        m == Tick(w.orch.tickId, w.server.command, INVALID_TIME)
  {
    assert VehicleInv(w, v);
  }

  /** The assertions that do hold for a live vehicle: its queue is empty when a push arrives, the
      push is not mistaken for a resend, and a push it reads has a new id. */
  lemma LiveAssertionsHold(w: World, v: nat, k: nat)
    requires Inv(w) && Live(w, v) && w.vehicles[v].phase != Exited
    ensures k < |w.mail[v]| ==>
              PushTick(w.vehicles[v].push, w.mail[v][k]).1 && !IsDupe(w.vehicles[v].push, w.mail[v][k])
    ensures w.vehicles[v].phase.Waiting? && w.vehicles[v].push.que != [] ==> Take(w.vehicles[v]).phase != Crashed
  {
    assert VehicleInv(w, v);
    AssertionsOk(w.vehicles[v], w.mail[v], k, v, w.orch.phase == Ended, w.orch.tickId, w.server.command,
                 v in w.replied);
  }

  lemma AssertionsOk(veh: Vehicle, mail: seq<Tick>, k: nat, index: nat, ended: bool, t: nat, c: Command, replied: bool)
    requires VehicleOk(veh, mail, index, ended, t, c, replied, false) && veh.phase !in {Exited, Crashed}
    ensures k < |mail| ==> PushTick(veh.push, mail[k]).1 && !IsDupe(veh.push, mail[k])
    ensures veh.phase.Waiting? && veh.push.que != [] ==> Take(veh).phase != Crashed
  {
  }

  /** The assertions of the server hold: the tick id is the next one, and a registration that
      completes finds one report per reply. */
  lemma ServerAssertionsHold(w: World, v: nat, c: Command)
    requires Inv(w)
    ensures Enabled(w, Broadcasting(c)) ==> w.server.tickId == Tick(w.orch.tickId + 1, c, INVALID_TIME).tickId - 1
    ensures Enabled(w, SendCarla(v)) && RegistrationPush(CarlaStored(w, v).server).Some? ==>
              |CarlaStored(w, v).server.pending| == CarlaStored(w, v).server.numReplied
  {
    if Enabled(w, SendCarla(v)) {
      CarlaTest(w, v);
    }
  }

  /** A completion is never dropped as a resend, nor does it meet a non-empty queue. */
  lemma CompletionIsAccepted(w: World, v: nat)
    requires Inv(w) && Enabled(w, Handle(v)) && SendUpdate(w.server, w.vehicles[v].phase.update).1.Some?
    ensures var t := SendUpdate(w.server, w.vehicles[v].phase.update).1.value;
            && !IsDupe(w.orch.push, t) && PushTick(w.orch.push, t).1
            && t == Tick(Label(w.orch.tickId), w.server.command, w.vehicles[v].phase.update.durationNs)
            && Apply(w, Handle(v)).orch.push.que == [t]
  {
    HandleFinds(w, v);
    HandleTest(w, v);
    NotifyOk(UpdateStored(w, v), SendUpdate(w.server, w.vehicles[v].phase.update).1.value, |w.vehicles|);
  }
}
