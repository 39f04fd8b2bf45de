/** The orchestrator's own queue assertion (sim_api.py): Server_StartScenario and Server_DoTick start a phase,
    and when their reply arrives its push queue must still be empty. */
module OrchReply {
  import opened Messages
  import opened IndexSets
  import opened EcloudServer
  import opened VehicleSim
  import opened Barrier
  import opened BarrierRuns
  import opened BarrierProgress

  /** The call that started the phase: its reply is awaited, is there, or came too late. */
  datatype Reply = Pending | Here | Failed

  datatype Sim = Sim(w: World, reply: Reply)

  datatype Event = Does(a: Action) | Returns

  function StartSim(numCars: nat, isEdge: bool, control: bool): Sim {
    Sim(Start(numCars, isEdge, control), Pending)
  }

  /** The orchestrator does nothing before the reply, nor after a failed assertion. */
  predicate Can(s: Sim, e: Event) {
    match e
    case Does(a) => Enabled(s.w, a) && (VehicleStep(a) || s.reply == Here)
    case Returns => s.reply == Pending
  }

  function Next(s: Sim, e: Event): Sim
    requires Can(s, e)
  {
    match e
    case Does(a) => Sim(Apply(s.w, a), if a.Broadcasting? then Pending else s.reply)
    case Returns => s.(reply := if s.w.orch.push.que == [] then Here else Failed)
  }

  predicate LegalSim(s: Sim, run: seq<Event>)
    decreases |run|, 0
  {
    run == [] || (LegalSim(s, run[..|run| - 1]) && Can(AfterSim(s, run[..|run| - 1]), run[|run| - 1]))
  }

  function AfterSim(s: Sim, run: seq<Event>): Sim
    requires LegalSim(s, run)
    decreases |run|, 1
  {
    if run == [] then s else Next(AfterSim(s, run[..|run| - 1]), run[|run| - 1])
  }

  /** The barrier's actions among the events. */
  function Actions(run: seq<Event>): seq<Action> {
    if run == [] then []
    else Actions(run[..|run| - 1]) + if run[|run| - 1].Does? then [run[|run| - 1].a] else []
  }

  /** The assertion takes steps away and adds none: every run is one of the barrier. */
  lemma {:induction false} SimRunIsRun(s: Sim, run: seq<Event>)
    requires LegalSim(s, run)
    ensures Legal(s.w, Actions(run)) && After(s.w, Actions(run)) == AfterSim(s, run).w
    decreases |run|
  {
    if run != [] {
      var front, e := run[..|run| - 1], run[|run| - 1];
      SimRunIsRun(s, front);
      if e.Does? {
        Snoc(s.w, Actions(front), e.a);
      } else {
        assert Actions(front) + [] == Actions(front);
      }
    }
  }

  /** Between a call and its reply, and for good after a failed assertion, only vehicles and their handlers act. */
  lemma {:induction false} OrchWaits(s: Sim, run: seq<Event>, i: nat)
    requires LegalSim(s, run) && i < |run| && run[i].Does? && LegalSim(s, run[..i])
    requires AfterSim(s, run[..i]).reply != Here
    ensures !run[i].a.Proceed? && !run[i].a.Drain? && !run[i].a.PushBuffers? && !run[i].a.Broadcasting?
    ensures !run[i].a.Finish?
    decreases |run|
  {
    if i < |run| - 1 {
      assert run[..|run| - 1][..i] == run[..i];
      OrchWaits(s, run[..|run| - 1], i);
    }
  }

  // ---- When the assertion fails ----

  /** While the phase is open, its completion was pushed exactly when everyone is accounted for. */
  ghost predicate PushedIffAllIn(w: World) {
    && Inv(w)
    && (w.orch.phase in {AwaitRegistration, AwaitTick} ==>
        (w.orch.push.que != [] <==> Complete(w.replied, w.done, |w.vehicles|)))
  }

  lemma StartPushes(numCars: nat, isEdge: bool, control: bool)
    requires 0 < numCars <= MAX_CARS
    ensures PushedIffAllIn(Start(numCars, isEdge, control))
  {
    StartInv(numCars, isEdge, control);
    assert 0 in All(numCars);
  }

  /** A tick started with somebody still taking part. */
  lemma TickPushes(w: World, c: Command)
    requires Inv(w) && Enabled(w, Broadcasting(c)) && w.done != All(|w.vehicles|)
    ensures PushedIffAllIn(Ticked(w, c))
  {
    BroadcastKeepsInv(w, c);
    assert {} + w.done == w.done;
  }

  lemma VehicleStepPushes(w: World, a: Action)
    requires PushedIffAllIn(w) && Enabled(w, a) && VehicleStep(a)
    ensures PushedIffAllIn(Apply(w, a))
  {
    StepKeepsInv(w, a);
    match a {
      case Handle(v) => HandlePushes(w, v);
      case SendCarla(v) => CarlaPushes(w, v);
      case Enroll(v) => EnrollPushes(w, v);
      case _ => PrivateFrame(w, a); PrivateHistory(w, a);
    }
  }

  lemma PrivateHistory(w: World, a: Action)
    requires Private(a) && Enabled(w, a)
    ensures Apply(w, a).replied == w.replied && Apply(w, a).done == w.done
  {
  }

  lemma HandlePushes(w: World, v: nat)
    requires PushedIffAllIn(w) && Enabled(w, Handle(v)) && Inv(Apply(w, Handle(v)))
    ensures PushedIffAllIn(Apply(w, Handle(v)))
  {
    HandleFinds(w, v);
    HandleTest(w, v);
    HandleFrame(w, v);
    HandleQueues(w, v);
    assert Apply(w, Handle(v)) == Handled(w, v);
  }

  lemma CarlaPushes(w: World, v: nat)
    requires PushedIffAllIn(w) && Enabled(w, SendCarla(v)) && Inv(Apply(w, SendCarla(v)))
    ensures PushedIffAllIn(Apply(w, SendCarla(v)))
  {
    CarlaFinds(w, v);
    CarlaTest(w, v);
    var mid := CarlaStored(w, v);
    if RegistrationPush(mid.server).Some? {
      NotifyOk(mid, RegistrationPush(mid.server).value, |w.vehicles|);
    }
  }

  lemma EnrollPushes(w: World, v: nat)
    requires PushedIffAllIn(w) && Enabled(w, Enroll(v)) && Inv(Apply(w, Enroll(v)))
    ensures PushedIffAllIn(Apply(w, Enroll(v)))
  {
    EnrollPushesNothing(w, v);
  }

  lemma {:induction false} VehicleRunPushes(w: World, run: seq<Action>)
    requires PushedIffAllIn(w) && Legal(w, run) && VehicleSteps(run)
    ensures PushedIffAllIn(After(w, run)) && After(w, run).orch.phase == w.orch.phase
    ensures |After(w, run).vehicles| == |w.vehicles|
    decreases |run|
  {
    if run != [] {
      var front, a := run[..|run| - 1], run[|run| - 1];
      VehicleRunPushes(w, front);
      VehicleStepPushes(After(w, front), a);
      StepKeepsCount(After(w, front), a);
      PhaseStays(After(w, front), a);
    }
  }

  lemma PhaseStays(w: World, a: Action)
    requires Enabled(w, a) && VehicleStep(a)
    ensures Apply(w, a).orch.phase == w.orch.phase
  {
  }

  /** Whether the assertion fails, exactly: for any steps of the vehicles and their handlers since the tick was
      started with somebody taking part, it fails if and only if they got everyone accounted for before the
      reply arrived. */
  lemma TickReplyFailsIff(w: World, c: Command, run: seq<Action>)
    requires Inv(w) && Enabled(w, Broadcasting(c)) && w.done != All(|w.vehicles|)
    requires Legal(Ticked(w, c), run) && VehicleSteps(run)
    ensures var now := After(Ticked(w, c), run);
            Next(Sim(now, Pending), Returns).reply == Failed <==> Complete(now.replied, now.done, |w.vehicles|)
  {
    TickPushes(w, c);
    VehicleRunPushes(Ticked(w, c), run);
  }

  /** Likewise while the cars register. */
  lemma StartReplyFailsIff(numCars: nat, isEdge: bool, control: bool, run: seq<Action>)
    requires 0 < numCars <= MAX_CARS && Legal(Start(numCars, isEdge, control), run) && VehicleSteps(run)
    ensures var now := After(Start(numCars, isEdge, control), run);
            Next(Sim(now, Pending), Returns).reply == Failed <==> Complete(now.replied, now.done, numCars)
  {
    StartPushes(numCars, isEdge, control);
    VehicleRunPushes(Start(numCars, isEdge, control), run);
  }

  // ---- Runs in which it fails ----

  /** The events lead from `s` to this world and reply. */
  predicate Leads(s: Sim, events: seq<Event>, w: World, reply: Reply) {
    LegalSim(s, events) && AfterSim(s, events) == Sim(w, reply)
  }

  lemma EventNext(s: Sim, events: seq<Event>, w: World, reply: Reply, e: Event)
    requires Leads(s, events, w, reply) && Can(Sim(w, reply), e)
    ensures var now := Next(Sim(w, reply), e); Leads(s, events + [e], now.w, now.reply)
  {
    assert (events + [e])[..|events|] == events;
  }

  function AllDone(run: seq<Action>): (r: seq<Event>)
    ensures |r| == |run|
  {
    seq(|run|, i requires 0 <= i < |run| => Does(run[i]))
  }

  /** A run without a broadcast can be taken with the reply there, and one of vehicles' steps at any time. */
  lemma {:induction false} RunLeads(s: Sim, events: seq<Event>, w: World, reply: Reply, run: seq<Action>)
    requires Leads(s, events, w, reply) && Legal(w, run) && NoBroadcast(run) && (reply == Here || VehicleSteps(run))
    ensures Leads(s, events + AllDone(run), After(w, run), reply)
    decreases |run|
  {
    if run == [] {
      assert events + AllDone(run) == events;
    } else {
      RunLeads(s, events, w, reply, run[..|run| - 1]);
      LastLeads(s, events, w, reply, run);
    }
  }

  lemma LastLeads(s: Sim, events: seq<Event>, w: World, reply: Reply, run: seq<Action>)
    requires Legal(w, run) && run != [] && !run[|run| - 1].Broadcasting?
    requires reply == Here || VehicleStep(run[|run| - 1])
    requires Leads(s, events + AllDone(run[..|run| - 1]), After(w, run[..|run| - 1]), reply)
    ensures Leads(s, events + AllDone(run), After(w, run), reply)
  {
    var front, a := run[..|run| - 1], run[|run| - 1];
    EventNext(s, events + AllDone(front), After(w, front), reply, Does(a));
    assert events + AllDone(run) == events + AllDone(front) + [Does(a)];
  }

  /** In a tick that goes well the vehicles can complete it on their own. */
  lemma {:induction false} CanComplete(w: World, head: seq<Action>) returns (run: seq<Action>)
    requires Legal(w, head) && VehicleSteps(head) && Smooth(After(w, head))
    ensures Legal(w, run) && VehicleSteps(run) && After(w, run).orch.push.que != []
    decreases Total(After(w, head), |After(w, head).vehicles|)
  {
    var now := After(w, head);
    run := head;
    if now.orch.push.que == [] {
      var a := SmoothCanStep(now);
      StepLowersTotal(now, a);
      SmoothStep(now, a);
      StepKeepsCount(now, a);
      Snoc(w, head, a);
      run := CanComplete(w, head + [a]);
    }
  }

  lemma StepsDoNotBroadcast(run: seq<Action>)
    requires VehicleSteps(run)
    ensures NoBroadcast(run)
  {
  }

  /** So in every tick that is certain to end, the assertion can fail: the vehicles may be faster than the
      reply. */
  lemma TickReplyCanFail(s: Sim, events: seq<Event>, w: World, c: Command) returns (all: seq<Event>)
    requires Leads(s, events, w, Here) && Inv(w) && Enabled(w, Broadcasting(c)) && Promising(w, c)
    ensures LegalSim(s, all) && AfterSim(s, all).reply == Failed
    ensures AfterSim(s, all).w.orch.tickId == w.orch.tickId + 1
  {
    PromisingIsSmooth(w, c);
    EventNext(s, events, w, Here, Does(Broadcasting(c)));
    var ticked := events + [Does(Broadcasting(c))];
    var run := CanComplete(Ticked(w, c), []);
    StepsDoNotBroadcast(run);
    VehicleStepsKeepTick(Ticked(w, c), run);
    RunLeads(s, ticked, Ticked(w, c), Pending, run);
    EventNext(s, ticked + AllDone(run), After(Ticked(w, c), run), Pending, Returns);
    all := ticked + AllDone(run) + [Returns];
  }

  /** The reply comes at once, then `ready` leads up to such a tick. */
  lemma Overtakes(w: World, ready: seq<Action>, c: Command) returns (all: seq<Event>)
    requires Inv(w) && w.orch.push.que == [] && Legal(w, ready) && NoBroadcast(ready)
    requires Enabled(After(w, ready), Broadcasting(c)) && Promising(After(w, ready), c)
    ensures LegalSim(Sim(w, Pending), all) && AfterSim(Sim(w, Pending), all).reply == Failed
    ensures AfterSim(Sim(w, Pending), all).w.orch.tickId == After(w, ready).orch.tickId + 1
  {
    var s := Sim(w, Pending);
    EventNext(s, [], w, Pending, Returns);
    RunLeads(s, [] + [Returns], w, Here, ready);
    RunKeepsInv(w, ready);
    all := TickReplyCanFail(s, [] + [Returns] + AllDone(ready), After(w, ready), c);
  }

  lemma OneCarPromises(w: World)
    requires OneCar(w, Ready, 0, Waiting(true), 0)
    ensures Enabled(w, Broadcasting(TICK)) && Promising(w, TICK)
  {
    assert 0 in All(1);
  }

  /** It does, on a run from the start: one car replies to the first tick before Server_DoTick's reply. */
  lemma ReplyAssertionCanFail() returns (all: seq<Event>)
    ensures LegalSim(StartSim(1, false, false), all) && AfterSim(StartSim(1, false, false), all).reply == Failed
    ensures AfterSim(StartSim(1, false, false), all).w.orch.tickId == 1
  {
    var ready := OneCarReady();
    StartInv(1, false, false);
    OneCarPromises(After(Start(1, false, false), ready));
    all := Overtakes(Start(1, false, false), ready, TICK);
  }

  lemma OvertakesStart(w: World, run: seq<Action>) returns (all: seq<Event>)
    requires Legal(w, run) && VehicleSteps(run) && After(w, run).orch.push.que != []
    ensures LegalSim(Sim(w, Pending), all)
    ensures AfterSim(Sim(w, Pending), all) == Sim(After(w, run), Failed)
  {
    StepsDoNotBroadcast(run);
    RunLeads(Sim(w, Pending), [], w, Pending, run);
    EventNext(Sim(w, Pending), [] + AllDone(run), After(w, run), Pending, Returns);
    all := [] + AllDone(run) + [Returns];
  }

  /** Likewise for Server_StartScenario's reply: the car has registered before. */
  lemma StartAssertionCanFail() returns (all: seq<Event>)
    ensures LegalSim(StartSim(1, false, false), all) && AfterSim(StartSim(1, false, false), all).reply == Failed
    ensures AfterSim(StartSim(1, false, false), all).w.orch.tickId == 0
  {
    var run := OneCarReports();
    all := OvertakesStart(Start(1, false, false), run);
  }
}
