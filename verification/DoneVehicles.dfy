/** What becomes of a vehicle once it has reported done (vehiclesim.py), over every run of the barrier. */
module DoneVehicles {
  import opened Messages
  import opened EcloudServer
  import opened VehicleSim
  import opened Barrier
  import opened BarrierRuns
  import opened BarrierProgress
  import EdgeScript
  import EdgeScenario

  // ---- END comes from the orchestrator ----

  predicate NoEnd(ticks: seq<Tick>) {
    forall i :: 0 <= i < |ticks| ==> ticks[i].command != END
  }

  /** No END is under way, and only a done vehicle has exited, and not under CONTROL. */
  predicate Going(veh: Vehicle, mail: seq<Tick>, control: bool, done: bool) {
    NoEnd(mail) && NoEnd(veh.push.que) && (veh.phase == Exited ==> !control && done)
  }

  predicate AllGoing(w: World)
    requires |w.vehicles| == |w.mail|
  {
    w.orch.phase != Ended ==>
      forall v :: 0 <= v < |w.vehicles| ==> Going(w.vehicles[v], w.mail[v], w.control, v in w.done)
  }

  lemma DeliverGoes(veh: Vehicle, mail: seq<Tick>, k: nat, control: bool, done: bool)
    requires Going(veh, mail, control, done) && k < |mail|
    ensures Going(Delivered(veh, mail[k]), mail[..k] + mail[k + 1..], control, done)
  {
  }

  lemma PrivateGoes(veh: Vehicle, mail: seq<Tick>, a: Action, control: bool, s: Server, done: bool)
    requires Private(a) && PrivateEnabled(veh, mail, a) && Going(veh, mail, control, done)
    requires veh.reportedDone ==> done
    ensures var (veh', mail') := PrivateStep(veh, mail, a, control, s); Going(veh', mail', control, done)
  {
    if a.Deliver? {
      DeliverGoes(veh, mail, a.k, control, done);
    }
  }

  lemma PrivateStepGoes(w: World, a: Action)
    requires Inv(w) && AllGoing(w) && Enabled(w, a) && Private(a)
    ensures AllGoing(Apply(w, a))
  {
    var w', v := Apply(w, a), a.v;
    if w.orch.phase != Ended {
      assert VehicleInv(w, v);
      PrivateGoes(w.vehicles[v], w.mail[v], a, w.control, w.server, v in w.done);
      forall u | 0 <= u < |w'.vehicles|
        ensures Going(w'.vehicles[u], w'.mail[u], w'.control, u in w'.done)
      {
        assert Going(w.vehicles[u], w.mail[u], w.control, u in w.done);
      }
    }
  }

  /** What a handler does to vehicle `v`, and to who is done. */
  ghost predicate Served(w: World, w': World, v: nat) {
    && v < |w.vehicles| == |w.mail| && w'.mail == w.mail && w'.orch.phase == w.orch.phase && w'.control == w.control
    && w.done <= w'.done
    && exists p: Phase :: p != Exited && w'.vehicles == w.vehicles[v := w.vehicles[v].(phase := p)]
  }

  lemma HandlerServes(w: World, a: Action)
    requires Enabled(w, a) && (a.Enroll? || a.SendCarla? || a.Handle?)
    ensures Served(w, Apply(w, a), a.v)
  {
    var w' := Apply(w, a);
    assert w'.vehicles == w.vehicles[a.v := w.vehicles[a.v].(phase := w'.vehicles[a.v].phase)];
  }

  lemma ServedGoes(w: World, w': World, v: nat, u: nat)
    requires Served(w, w', v) && u < |w.vehicles| && Going(w.vehicles[u], w.mail[u], w.control, u in w.done)
    ensures |w'.vehicles| == |w'.mail| == |w.vehicles|
    ensures Going(w'.vehicles[u], w'.mail[u], w'.control, u in w'.done)
  {
  }

  lemma PostedGoes(veh: Vehicle, mail: seq<Tick>, t: Tick, control: bool, done: bool)
    requires Going(veh, mail, control, done) && t.command != END
    ensures Going(veh, mail + [t], control, done)
  {
  }

  lemma OrchGoes(w: World, a: Action, u: nat)
    requires Inv(w) && Enabled(w, a) && u < |w.vehicles| && Going(w.vehicles[u], w.mail[u], w.control, u in w.done)
    requires a.Proceed? || a.Drain? || a.PushBuffers? || a.Broadcasting?
    ensures var w' := Apply(w, a);
            && |w'.vehicles| == |w'.mail| == |w.vehicles|
            && Going(w'.vehicles[u], w'.mail[u], w'.control, u in w'.done)
  {
    if a.Broadcasting? {
      PostedGoes(w.vehicles[u], w.mail[u], Tick(w.orch.tickId + 1, a.command, INVALID_TIME), w.control, u in w.done);
    }
  }

  lemma OthersGo(w: World, a: Action)
    requires Inv(w) && AllGoing(w) && Enabled(w, a) && !Private(a)
    ensures |Apply(w, a).vehicles| == |Apply(w, a).mail| && AllGoing(Apply(w, a))
  {
    var w' := Apply(w, a);
    StepKeepsInv(w, a);
    StepKeepsCount(w, a);
    if w'.orch.phase != Ended {
      NotEnding(w, a);
      forall u | 0 <= u < |w'.vehicles|
        ensures Going(w'.vehicles[u], w'.mail[u], w'.control, u in w'.done)
      {
        assert Going(w.vehicles[u], w.mail[u], w.control, u in w.done);
        if a.Enroll? || a.SendCarla? || a.Handle? {
          HandlerServes(w, a);
          ServedGoes(w, w', a.v, u);
        } else {
          OrchGoes(w, a, u);
        }
      }
    }
  }

  lemma NotEnding(w: World, a: Action)
    requires Enabled(w, a) && Apply(w, a).orch.phase != Ended
    ensures w.orch.phase != Ended && !a.Finish?
  {
  }

  lemma {:induction false} AlwaysGoing(w: World, run: seq<Action>)
    requires IsStart(w) && Legal(w, run)
    ensures AllGoing(After(w, run))
    decreases |run|
  {
    if run != [] {
      var front, a := run[..|run| - 1], run[|run| - 1];
      AlwaysGoing(w, front);
      IsStartInv(w);
      RunKeepsInv(w, front);
      if Private(a) {
        PrivateStepGoes(After(w, front), a);
      } else {
        OthersGo(After(w, front), a);
      }
    }
  }

  lemma {:induction false} SameControl(w: World, run: seq<Action>)
    requires Legal(w, run)
    ensures After(w, run).control == w.control
    decreases |run|
  {
    if run != [] {
      SameControl(w, run[..|run| - 1]);
      StepSameControl(After(w, run[..|run| - 1]), run[|run| - 1]);
    }
  }

  lemma StepSameControl(w: World, a: Action)
    requires Enabled(w, a)
    ensures Apply(w, a).control == w.control
  {
  }

  /** Under CONTROL no vehicle leaves before the scenario was ended; otherwise only one that reported done. */
  lemma ExitsOnlyThen(w: World, run: seq<Action>, v: nat)
    requires IsStart(w) && Legal(w, run) && v < |w.vehicles|
    requires v < |After(w, run).vehicles| && After(w, run).vehicles[v].phase == Exited
    ensures After(w, run).orch.phase == Ended || (!w.control && ReportedDone(w, run, v))
  {
    AlwaysGoing(w, run);
    SameControl(w, run);
    IsStartInv(w);
    RunKeepsInv(w, run);
    if After(w, run).orch.phase != Ended {
      assert Going(After(w, run).vehicles[v], After(w, run).mail[v], w.control, v in After(w, run).done);
      DoneIsReal(w, run, v);
    }
  }

  // ---- After the last update ----

  /** A done vehicle in the middle of its loop: under CONTROL it sends nothing and reads on, unless a push waits
      already, which fails its assertion; otherwise it leaves. */
  lemma DoneStep(w: World, run: seq<Action>, v: nat, arrived: bool, durationNs: int)
    requires IsStart(w) && Legal(w, run) && Enabled(After(w, run), Step(v, arrived, durationNs))
    requires v in After(w, run).done
    ensures v < |Apply(After(w, run), Step(v, arrived, durationNs)).vehicles|
    ensures var before, after := After(w, run), Apply(After(w, run), Step(v, arrived, durationNs));
            after.vehicles[v].phase ==
            if !w.control then Exited else if before.vehicles[v].push.que == [] then Waiting(false) else Crashed
  {
    IsStartInv(w);
    RunKeepsInv(w, run);
    SameControl(w, run);
    assert VehicleInv(After(w, run), v);
  }

  /** How often `v` reads a push from position `j` on. */
  function Reads(run: seq<Action>, v: nat, j: nat): nat {
    if |run| <= j then 0 else Reads(run[..|run| - 1], v, j) + if run[|run| - 1] == TakePush(v) then 1 else 0
  }

  /** A done vehicle may read once if it has not. */
  predicate ReadsLeft(veh: Vehicle, count: nat) {
    count <= 1 && (veh.phase.Returning? || veh.phase.Waiting? ==> count == 0)
  }

  lemma PrivateReads(veh: Vehicle, mail: seq<Tick>, a: Action, s: Server, count: nat)
    requires Private(a) && PrivateEnabled(veh, mail, a) && ReadsLeft(veh, count) && DoneInv(veh)
    ensures ReadsLeft(PrivateStep(veh, mail, a, false, s).0, count + if a.TakePush? then 1 else 0)
  {
  }

  lemma StepReads(w: World, a: Action, v: nat, count: nat)
    requires Inv(w) && Enabled(w, a) && v < |w.vehicles| && v in w.done && !w.control && ReadsLeft(w.vehicles[v], count)
    ensures v < |Apply(w, a).vehicles| && v in Apply(w, a).done
    ensures ReadsLeft(Apply(w, a).vehicles[v], count + if a == TakePush(v) then 1 else 0)
  {
    assert VehicleInv(w, v);
    if Private(a) {
      if a.v == v {
        PrivateReads(w.vehicles[v], w.mail[v], a, w.server, count);
      }
    } else {
      OthersLeaveDone(w, a, v);
    }
  }

  lemma OthersLeaveDone(w: World, a: Action, v: nat)
    requires Inv(w) && Enabled(w, a) && !Private(a) && v < |w.vehicles| && v in w.done
    ensures v < |Apply(w, a).vehicles| && Apply(w, a).vehicles[v] == w.vehicles[v] && v in Apply(w, a).done
  {
    assert VehicleInv(w, v);
    match a {
      case Handle(u) => HandleFinds(w, u); HandleFrame(w, u);
      case SendCarla(u) => CarlaFinds(w, u);
      case _ =>
    }
  }

  lemma SendsDone(w: World, run: seq<Action>, j: nat, v: nat, state: VehicleState)
    requires IsStart(w) && Legal(w, run) && Sends(w, run, j, v, state) && IsDone(state) && |run| == j + 1
    ensures v < |After(w, run).vehicles| && v in After(w, run).done && After(w, run).vehicles[v].phase.Returning?
  {
    assert run[..|run| - 1] == run[..j];
    IsStartInv(w);
    RunKeepsInv(w, run[..j]);
    HandleFrame(After(w, run[..j]), v);
  }

  lemma {:induction false} ReadsSoFar(w: World, run: seq<Action>, j: nat, v: nat, state: VehicleState)
    requires IsStart(w) && Legal(w, run) && Sends(w, run, j, v, state) && IsDone(state) && !w.control
    ensures v < |After(w, run).vehicles| && v in After(w, run).done
    ensures ReadsLeft(After(w, run).vehicles[v], Reads(run, v, j + 1))
    decreases |run|
  {
    var front := run[..|run| - 1];
    if |run| == j + 1 {
      SendsDone(w, run, j, v, state);
    } else {
      assert front[..j] == run[..j];
      ReadsSoFar(w, front, j, v, state);
      IsStartInv(w);
      RunKeepsInv(w, front);
      SameControl(w, front);
      StepReads(After(w, front), run[|run| - 1], v, Reads(front, v, j + 1));
    }
  }

  /** Without CONTROL a vehicle reads at most one push after its last update. */
  lemma OneReadAfterDone(w: World, run: seq<Action>, j: nat, v: nat, state: VehicleState)
    requires IsStart(w) && Legal(w, run) && Sends(w, run, j, v, state) && IsDone(state) && !w.control
    ensures Reads(run, v, j + 1) <= 1
  {
    ReadsSoFar(w, run, j, v, state);
  }

  lemma {:induction false} StaysDone(w: World, run: seq<Action>, j: nat, v: nat, state: VehicleState)
    requires IsStart(w) && Legal(w, run) && Sends(w, run, j, v, state) && IsDone(state)
    ensures v in After(w, run).done
    decreases |run|
  {
    var front := run[..|run| - 1];
    if |run| == j + 1 {
      SendsDone(w, run, j, v, state);
    } else {
      assert front[..j] == run[..j];
      StaysDone(w, front, j, v, state);
      DoneGrowsOnly(After(w, front), run[|run| - 1]);
    }
  }

  lemma DoneGrowsOnly(w: World, a: Action)
    requires Enabled(w, a)
    ensures w.done <= Apply(w, a).done
  {
  }

  lemma LastNotHandled(w: World, run: seq<Action>, j: nat, v: nat, state: VehicleState)
    requires IsStart(w) && Legal(w, run) && Sends(w, run, j, v, state) && IsDone(state) && j < |run| - 1
    ensures run[|run| - 1] != Handle(v)
  {
    var front := run[..|run| - 1];
    assert front[..j] == run[..j];
    StaysDone(w, front, j, v, state);
    IsStartInv(w);
    RunKeepsInv(w, front);
    DoneNotHandled(After(w, front), run[|run| - 1], v);
  }

  /** In either case that update is its last. */
  lemma {:induction false} LastUpdateIsLast(w: World, run: seq<Action>, j: nat, v: nat, state: VehicleState, i: nat)
    requires IsStart(w) && Legal(w, run) && Sends(w, run, j, v, state) && IsDone(state) && j < i < |run|
    ensures run[i] != Handle(v)
    decreases |run|
  {
    if i == |run| - 1 {
      LastNotHandled(w, run, j, v, state);
    } else {
      SendsBefore(w, run, j, v, state, |run| - 1);
      LastUpdateIsLast(w, run[..|run| - 1], j, v, state, i);
    }
  }

  lemma SendsBefore(w: World, run: seq<Action>, j: nat, v: nat, state: VehicleState, n: nat)
    requires Legal(w, run) && Sends(w, run, j, v, state) && j < n <= |run|
    ensures Legal(w, run[..n]) && Sends(w, run[..n], j, v, state)
  {
    PrefixLegal(w, run, n);
    assert run[..n][..j] == run[..j];
  }

  lemma DoneNotHandled(w: World, a: Action, v: nat)
    requires Inv(w) && Enabled(w, a) && v in w.done
    ensures a != Handle(v)
  {
    if a == Handle(v) {
      HandleFinds(w, v);
      assert false;
    }
  }

  // ---- Where an update comes from ----

  /** The update a vehicle sends in tick `t` under command `c` says how its last step went: whether it arrived and
      how long it took. */
  predicate Tells(u: VehicleUpdate, t: nat, c: Command, arrived: bool, durationNs: int) {
    if c == REQUEST_DEBUG_INFO then u.vehicleState == DEBUG_INFO_UPDATE && u.durationNs == 0
    else if c == PULL_WAYPOINTS_AND_TICK && t == 1 then u.vehicleState == REGISTERING && u.durationNs == 0
    else if arrived then u.vehicleState == TICK_DONE && u.durationNs == 0
    else u.vehicleState == TICK_OK && u.durationNs == durationNs
  }

  /** A live vehicle's step sends such an update, with its index and the tick. */
  lemma StepTells(w: World, run: seq<Action>, v: nat, arrived: bool, durationNs: int)
    requires IsStart(w) && Legal(w, run) && Enabled(After(w, run), Step(v, arrived, durationNs))
    requires v !in After(w, run).done && After(w, run).orch.phase != Ended
    ensures v < |Apply(After(w, run), Step(v, arrived, durationNs)).vehicles|
    ensures var now, after := After(w, run), Apply(After(w, run), Step(v, arrived, durationNs));
            && after.vehicles[v].phase.Sending?
            && var u := after.vehicles[v].phase.update;
               && u.vehicleIndex == v && u.tickId == Label(now.orch.tickId)
               && Tells(u, now.orch.tickId, now.server.command, arrived, durationNs)
  {
    IsStartInv(w);
    RunKeepsInv(w, run);
    LiveStepTells(After(w, run), v, arrived, durationNs);
  }

  lemma LiveStepTells(w: World, v: nat, arrived: bool, durationNs: int)
    requires Inv(w) && Enabled(w, Step(v, arrived, durationNs)) && v !in w.done && w.orch.phase != Ended
    ensures var veh := PrivateStep(w.vehicles[v], w.mail[v], Step(v, arrived, durationNs), w.control, w.server).0;
            && Apply(w, Step(v, arrived, durationNs)).vehicles == w.vehicles[v := veh] && veh.phase.Sending?
            && var u := veh.phase.update;
               && u.vehicleIndex == v && u.tickId == Label(w.orch.tickId)
               && Tells(u, w.orch.tickId, w.server.command, arrived, durationNs)
  {
    assert VehicleInv(w, v);
  }

  // ---- The debug request ends everyone's part ----

  /** Nobody merely replies to it. */
  predicate DebugAnswers(w: World) {
    w.server.command == REQUEST_DEBUG_INFO && w.orch.phase != Ended ==>
      && w.replied == {}
      && forall v :: 0 <= v < |w.vehicles| && v !in w.done && w.vehicles[v].phase.Sending? ==>
           w.vehicles[v].phase.update.vehicleState == DEBUG_INFO_UPDATE
  }

  lemma PrivateAnswers(w: World, a: Action)
    requires Inv(w) && DebugAnswers(w) && Enabled(w, a) && Private(a)
    ensures DebugAnswers(Apply(w, a))
  {
    var w' := Apply(w, a);
    PrivateFrame(w, a);
    PrivateSameReplies(w, a);
    if w.server.command == REQUEST_DEBUG_INFO && w.orch.phase != Ended {
      forall v | 0 <= v < |w'.vehicles| && v !in w'.done && w'.vehicles[v].phase.Sending?
        ensures w'.vehicles[v].phase.update.vehicleState == DEBUG_INFO_UPDATE
      {
        if v == a.v {
          assert VehicleInv(w, v);
          SendsDebugInfo(w.vehicles[v], w.mail[v], a, w.orch.tickId, v in w.replied, w.control, w.server);
        }
      }
    }
  }

  lemma PrivateSameReplies(w: World, a: Action)
    requires Enabled(w, a) && Private(a)
    ensures Apply(w, a).replied == w.replied && |Apply(w, a).mail| == |w.mail|
    ensures forall v :: 0 <= v < |w.vehicles| && v != a.v ==> Apply(w, a).vehicles[v] == w.vehicles[v]
    ensures Apply(w, a).vehicles[a.v] == PrivateStep(w.vehicles[a.v], w.mail[a.v], a, w.control, w.server).0
  {
  }

  /** A live vehicle's part of the debug tick. */
  lemma SendsDebugInfo(veh: Vehicle, mail: seq<Tick>, a: Action, t: nat, replied: bool, control: bool, s: Server)
    requires Private(a) && PrivateEnabled(veh, mail, a) && LiveInv(veh, mail, a.v, t, REQUEST_DEBUG_INFO, replied)
    requires veh.phase.Sending? ==> veh.phase.update.vehicleState == DEBUG_INFO_UPDATE
    ensures var veh' := PrivateStep(veh, mail, a, control, s).0;
            veh'.phase.Sending? ==> veh'.phase.update.vehicleState == DEBUG_INFO_UPDATE
  {
  }

  lemma HandleAnswers(w: World, v: nat)
    requires Inv(w) && DebugAnswers(w) && Enabled(w, Handle(v))
    ensures DebugAnswers(Apply(w, Handle(v)))
  {
    HandleFinds(w, v);
    HandleFrame(w, v);
  }

  lemma StepAnswers(w: World, a: Action)
    requires Inv(w) && DebugAnswers(w) && Enabled(w, a)
    ensures DebugAnswers(Apply(w, a))
  {
    match a {
      case Handle(v) => HandleAnswers(w, v);
      case SendCarla(v) => CarlaFinds(w, v); NotDebugYet(w); CarlaCommand(w, v);
      case Enroll(v) => EnrollAnswers(w, v);
      case Broadcasting(c) => BroadcastAnswers(w, c);
      case Proceed => OrchAnswers(w, a);
      case Drain => OrchAnswers(w, a);
      case PushBuffers(_) => OrchAnswers(w, a);
      case Finish =>
      case _ => PrivateAnswers(w, a);
    }
  }

  lemma NotDebugYet(w: World)
    requires Inv(w) && w.orch.phase == AwaitRegistration
    ensures w.server.command == TICK
  {
  }

  lemma CarlaCommand(w: World, v: nat)
    requires Enabled(w, SendCarla(v))
    ensures Apply(w, SendCarla(v)).server.command == w.server.command
  {
  }

  lemma EnrollAnswers(w: World, v: nat)
    requires Inv(w) && DebugAnswers(w) && Enabled(w, Enroll(v))
    ensures DebugAnswers(Apply(w, Enroll(v)))
  {
  }

  lemma OrchAnswers(w: World, a: Action)
    requires DebugAnswers(w) && Enabled(w, a) && (a.Proceed? || a.Drain? || a.PushBuffers?)
    ensures DebugAnswers(Apply(w, a))
  {
  }

  /** A vehicle that is through with a tick sends nothing when the next one starts. */
  lemma BroadcastAnswers(w: World, c: Command)
    requires Inv(w) && Enabled(w, Broadcasting(c))
    ensures DebugAnswers(Ticked(w, c))
  {
    forall v | 0 <= v < |w.vehicles| && v !in w.done
      ensures !w.vehicles[v].phase.Sending?
    {
      AllEnrolled(w, v);
      assert VehicleInv(w, v);
    }
  }

  lemma {:induction false} AlwaysAnswers(w: World, run: seq<Action>)
    requires IsStart(w) && Legal(w, run)
    ensures DebugAnswers(After(w, run))
    decreases |run|
  {
    if run != [] {
      AlwaysAnswers(w, run[..|run| - 1]);
      IsStartInv(w);
      RunKeepsInv(w, run[..|run| - 1]);
      StepAnswers(After(w, run[..|run| - 1]), run[|run| - 1]);
    }
  }

  /** Once the tick that asks for debug information is over, every vehicle has reported done. */
  lemma DebugRequestEndsAll(w: World, run: seq<Action>, v: nat)
    requires IsStart(w) && Legal(w, run) && v < |w.vehicles|
    requires After(w, run).orch.phase == Ready && After(w, run).server.command == REQUEST_DEBUG_INFO
    ensures ReportedDone(w, run, v)
  {
    AlwaysAnswers(w, run);
    IsStartInv(w);
    RunKeepsInv(w, run);
    ReadyMeansDone(After(w, run), v);
    DoneIsReal(w, run, v);
  }

  lemma ReadyMeansDone(w: World, v: nat)
    requires Inv(w) && w.orch.phase == Ready && w.replied == {} && v < |w.vehicles|
    ensures v in w.done
  {
    assert v in w.replied + w.done;
  }

  /** So a run that has followed the whole edge script, and is through with its last tick, has every vehicle done. */
  lemma ScriptEndsAll(w: World, run: seq<Action>, n: nat, k: nat, v: nat)
    requires IsStart(w) && Legal(w, run) && k >= 1 && EdgeScenario.OrdersOf(run) == EdgeScript.Script(n, k)
    requires After(w, run).orch.phase == Ready && v < |w.vehicles|
    ensures ReportedDone(w, run, v)
  {
    EdgeScenario.LastSendIsCommand(w, run, REQUEST_DEBUG_INFO);
    DebugRequestEndsAll(w, run, v);
  }
}
