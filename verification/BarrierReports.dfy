/** Which reports the orchestrator gets, over every run of the barrier. */
module BarrierReports {
  import opened Messages
  import opened EcloudServer
  import opened Barrier
  import opened BarrierRuns
  import opened BarrierProgress
  import Reports

  /** What an action sends that the orchestrator is to get: every registration; of the updates those of an edge
      scenario, the spectator's, and each vehicle's last one. */
  function Meant(w: World, a: Action): seq<Report>
    requires Enabled(w, a)
  {
    match a
    case SendCarla(v) => [FromCarla(v)]
    case Handle(v) =>
      var u := w.vehicles[v].phase.update;
      if w.server.isEdge || u.vehicleIndex == 0 || u.vehicleState == TICK_DONE || u.vehicleState == DEBUG_INFO_UPDATE
      then [FromUpdate(u)] else []
    case _ => []
  }

  /** What it hands to the orchestrator. */
  function Handed(w: World, a: Action): seq<Report>
    requires Enabled(w, a)
  {
    if a.Drain? then GetUpdates(w.server).1 else []
  }

  function AllMeant(w: World, run: seq<Action>): seq<Report>
    requires Legal(w, run)
    decreases |run|
  {
    if run == [] then []
    else AllMeant(w, run[..|run| - 1]) + Meant(After(w, run[..|run| - 1]), run[|run| - 1])
  }

  function AllHanded(w: World, run: seq<Action>): seq<Report>
    requires Legal(w, run)
    decreases |run|
  {
    if run == [] then []
    else AllHanded(w, run[..|run| - 1]) + Handed(After(w, run[..|run| - 1]), run[|run| - 1])
  }

  lemma StepReports(w: World, a: Action)
    requires Enabled(w, a)
    ensures multiset(Apply(w, a).server.pending) + multiset(Handed(w, a)) ==
            multiset(w.server.pending) + multiset(Meant(w, a))
  {
    match a {
      case Drain => Reports.FetchConserves(w.server);
      case Handle(v) => HandleReports(w, v);
      case SendCarla(v) => assert Apply(w, a).server.pending == w.server.pending + Meant(w, a);
      case _ => assert Apply(w, a).server.pending == w.server.pending;
    }
  }

  lemma HandleReports(w: World, v: nat)
    requires Enabled(w, Handle(v))
    ensures Apply(w, Handle(v)).server.pending == w.server.pending + Meant(w, Handle(v))
  {
    ReportsQueued(w.server, w.vehicles[v].phase.update);
  }

  /** In every run, what was meant for the orchestrator is, report by report, what it was handed and what still
      waits in the queue. */
  lemma {:induction false} ReportsArrive(w: World, run: seq<Action>)
    requires IsStart(w) && Legal(w, run)
    ensures multiset(AllMeant(w, run)) == multiset(AllHanded(w, run)) + multiset(After(w, run).server.pending)
    decreases |run|
  {
    if run != [] {
      var front, a := run[..|run| - 1], run[|run| - 1];
      ReportsArrive(w, front);
      StepReports(After(w, front), a);
      BalanceNext(AllMeant(w, front), AllHanded(w, front), After(w, front).server.pending,
                  Meant(After(w, front), a), Handed(After(w, front), a), After(w, run).server.pending);
    }
  }

  lemma BalanceNext<T>(meant: seq<T>, handed: seq<T>, pending: seq<T>, more: seq<T>, out: seq<T>, left: seq<T>)
    requires multiset(meant) == multiset(handed) + multiset(pending)
    requires multiset(left) + multiset(out) == multiset(pending) + multiset(more)
    ensures multiset(meant + more) == multiset(handed + out) + multiset(left)
  {
    Sums(meant, more);
    Sums(handed, out);
    calc {
      multiset(meant) + multiset(more);
      multiset(handed) + (multiset(pending) + multiset(more));
      multiset(handed) + multiset(out) + multiset(left);
    }
  }

  lemma Sums<T>(a: seq<T>, b: seq<T>)
    ensures multiset(a + b) == multiset(a) + multiset(b)
  {
  }

  lemma {:induction false} SentIsMeant(w: World, run: seq<Action>, j: nat, v: nat, state: VehicleState)
    requires Legal(w, run) && Sends(w, run, j, v, state) && IsDone(state)
    ensures FromUpdate(After(w, run[..j]).vehicles[v].phase.update) in AllMeant(w, run)
    decreases |run|
  {
    var front := run[..|run| - 1];
    if j < |run| - 1 {
      assert front[..j] == run[..j];
      SentIsMeant(w, front, j, v, state);
    }
  }

  /** So a vehicle that reported done has handed its last update on: the update it sent was fetched by the
      orchestrator or waits in the queue. */
  lemma LastReportArrives(w: World, run: seq<Action>, v: nat) returns (j: nat)
    requires IsStart(w) && Legal(w, run) && v in After(w, run).done
    ensures j < |run| && run[j] == Handle(v) && Legal(w, run[..j])
    ensures var before := After(w, run[..j]);
            && v < |before.vehicles| && before.vehicles[v].phase.Sending?
            && var u := before.vehicles[v].phase.update;
               && (u.vehicleState == TICK_DONE || u.vehicleState == DEBUG_INFO_UPDATE) && u.vehicleIndex == v
               && FromUpdate(u) in AllHanded(w, run) + After(w, run).server.pending
  {
    DoneIsReal(w, run, v);
    var i: nat, state :| Sends(w, run, i, v, state) && IsDone(state);
    j := i;
    ReportsArrive(w, run);
    SentIsMeant(w, run, j, v, state);
    var r := FromUpdate(After(w, run[..j]).vehicles[v].phase.update);
    assert r in multiset(AllMeant(w, run));
    Sums(AllHanded(w, run), After(w, run).server.pending);
    assert r in multiset(AllHanded(w, run) + After(w, run).server.pending);
    IsStartInv(w);
    RunKeepsInv(w, run[..j]);
    HandleFinds(After(w, run[..j]), v);
  }

  // ---- After the debug request the queue is drained ----

  /** After a debug request, but for one in the first tick, the orchestrator fetches until a reply is empty. */
  predicate DebugDrains(w: World) {
    w.server.command == REQUEST_DEBUG_INFO && w.orch.tickId >= 2 ==>
      && (w.orch.phase.Draining? ==> w.orch.phase.untilEmpty)
      && (w.orch.phase == Ready ==> w.server.pending == [] || |w.server.pending| >= 0x8000)
  }

  lemma EmptyReply(s: Server)
    ensures GetUpdates(s).1 == [] ==> GetUpdates(s).0.pending == s.pending
    ensures GetUpdates(s).1 == [] && |s.pending| < 0x8000 ==> s.pending == []
  {
  }

  lemma DrainDrains(w: World)
    requires DebugDrains(w) && Enabled(w, Drain)
    ensures DebugDrains(Apply(w, Drain))
  {
    EmptyReply(w.server);
  }

  lemma OrchDrains(w: World, a: Action)
    requires DebugDrains(w) && Enabled(w, a) && (a.Proceed? || a.PushBuffers? || a.Broadcasting? || a.Finish?)
    requires w.orch.phase == AwaitRegistration ==> w.orch.tickId == 0
    ensures DebugDrains(Apply(w, a))
  {
    match a {
      case Proceed => assert Apply(w, a) == Proceeded(w);
      case Broadcasting(c) => assert Apply(w, a) == Ticked(w, c);
      case _ =>
    }
  }

  lemma VehicleDrains(w: World, a: Action)
    requires Inv(w) && DebugDrains(w) && Enabled(w, a) && VehicleStep(a)
    ensures DebugDrains(Apply(w, a))
  {
    match a {
      case Handle(v) => HandleFinds(w, v); HandleFrame(w, v);
      case SendCarla(v) => CarlaFinds(w, v); CarlaKeeps(w, v);
      case Enroll(v) => assert VehicleInv(w, v);
      case _ => PrivateFrame(w, a);
    }
  }

  lemma CarlaKeeps(w: World, v: nat)
    requires Enabled(w, SendCarla(v))
    ensures Apply(w, SendCarla(v)).orch.phase == w.orch.phase
    ensures Apply(w, SendCarla(v)).server.command == w.server.command
  {
  }

  lemma {:induction false} AlwaysDrains(w: World, run: seq<Action>)
    requires IsStart(w) && Legal(w, run)
    ensures DebugDrains(After(w, run))
    decreases |run|
  {
    if run != [] {
      var front, a := run[..|run| - 1], run[|run| - 1];
      AlwaysDrains(w, front);
      IsStartInv(w);
      RunKeepsInv(w, front);
      if a == Drain {
        DrainDrains(After(w, front));
      } else if VehicleStep(a) {
        VehicleDrains(After(w, front), a);
      } else {
        OrchDrains(After(w, front), a);
      }
    }
  }

  /** So once the debug request's tick is over, every report meant for the orchestrator has been handed to it,
      unless 32768 or more are left, which no call can take. */
  lemma DebugRequestDrains(w: World, run: seq<Action>)
    requires IsStart(w) && Legal(w, run)
    requires After(w, run).orch.phase == Ready && After(w, run).server.command == REQUEST_DEBUG_INFO
    requires After(w, run).orch.tickId >= 2
    ensures |After(w, run).server.pending| >= 0x8000 || multiset(AllHanded(w, run)) == multiset(AllMeant(w, run))
  {
    AlwaysDrains(w, run);
    ReportsArrive(w, run);
  }

  /** The orchestrator fetches until a reply is empty, and `n` reports are left. */
  predicate Fetching(w: World, n: nat) {
    Shaped(w) && w.orch.phase == Draining(true) && |w.server.pending| == n < 0x8000
  }

  lemma FetchesMore(w: World, n: nat)
    requires Fetching(w, n) && n > 0
    ensures Enabled(w, Drain) && Fetching(Apply(w, Drain), if n <= 33 then 0 else n - 33)
  {
  }

  lemma FetchesNothing(w: World)
    requires Fetching(w, 0)
    ensures Enabled(w, Drain)
    ensures Apply(w, Drain).orch.phase == Ready && Apply(w, Drain).server.pending == []
  {
  }

  lemma OneCallLess(n: nat)
    requires n > 0
    ensures Reports.Calls(if n <= 33 then 0 else n - 33) == Reports.Calls(n) - 1
  {
  }

  /** The fetching does end: a queue of fewer than 32768 reports takes a call for every 33 and one that comes back
      empty, whereupon the orchestrator goes on. */
  lemma {:induction false} DebugFetchEnds(w: World, head: seq<Action>, n: nat) returns (run: seq<Action>)
    requires Legal(w, head) && Fetching(After(w, head), n)
    ensures Legal(w, run) && After(w, run).orch.phase == Ready && After(w, run).server.pending == []
    ensures |run| == |head| + Reports.Calls(n) + 1
    decreases n
  {
    if n == 0 {
      FetchesNothing(After(w, head));
      Snoc(w, head, Drain);
      run := head + [Drain];
    } else {
      FetchesMore(After(w, head), n);
      Snoc(w, head, Drain);
      OneCallLess(n);
      run := DebugFetchEnds(w, head + [Drain], if n <= 33 then 0 else n - 33);
    }
  }

  /** From the end of the scenario on, the server's command is END. */
  lemma {:induction false} EndIsLast(w: World, run: seq<Action>)
    requires IsStart(w) && Legal(w, run)
    ensures After(w, run).server.command == END <==> After(w, run).orch.phase == Ended
    decreases |run|
  {
    if run != [] {
      EndIsLast(w, run[..|run| - 1]);
      IsStartInv(w);
      RunKeepsInv(w, run[..|run| - 1]);
      EndStep(After(w, run[..|run| - 1]), run[|run| - 1]);
    }
  }

  lemma EndStep(w: World, a: Action)
    requires Inv(w) && Enabled(w, a) && (w.server.command == END <==> w.orch.phase == Ended)
    ensures Apply(w, a).server.command == END <==> Apply(w, a).orch.phase == Ended
  {
    if VehicleStep(a) {
      VehicleKeepsCommand(w, a);
    } else {
      OrchCommand(w, a);
    }
  }

  lemma VehicleKeepsCommand(w: World, a: Action)
    requires Enabled(w, a) && VehicleStep(a)
    ensures Apply(w, a).server.command == w.server.command && Apply(w, a).orch.phase == w.orch.phase
  {
  }

  lemma OrchCommand(w: World, a: Action)
    requires Enabled(w, a) && !VehicleStep(a)
    ensures w.orch.phase != Ended
    ensures Apply(w, a).server.command ==
            if a.Broadcasting? then a.command else if a.Finish? then END else w.server.command
    ensures Apply(w, a).orch.phase == Ended <==> a.Finish?
    ensures a.Broadcasting? ==> a.command != END
  {
  }

  // ---- The reply flags ----

  /** The flag of every car that replied in this tick is set, that of every car still awaited is not. */
  predicate FlagsTell(w: World) {
    && |w.server.repliedCars| == MAX_CARS && |w.vehicles| <= MAX_CARS
    && forall v :: 0 <= v < |w.vehicles| ==> FlagTells(w, v)
  }

  predicate FlagTells(w: World, v: nat)
    requires v < |w.server.repliedCars|
  {
    && (v in w.replied && w.orch.tickId >= 1 ==> w.server.repliedCars[v])
    && (v !in w.replied && v !in w.done && !Uncounted(w) ==> !w.server.repliedCars[v])
  }

  lemma HandleTells(w: World, v: nat)
    requires Inv(w) && FlagsTell(w) && Enabled(w, Handle(v))
    ensures FlagsTell(Apply(w, Handle(v)))
  {
    HandleFinds(w, v);
    HandleFrame(w, v);
    assert VehicleInv(w, v);
    HandleFlags(w, v);
    var w' := Apply(w, Handle(v));
    forall u | 0 <= u < |w'.vehicles|
      ensures FlagTells(w', u)
    {
      assert FlagTells(w, u);
      assert u in w'.replied <==> (u == v && v in w'.replied) || (u != v && u in w'.replied - {v});
      assert u in w.replied <==> (u == v && v in w.replied) || (u != v && u in w.replied - {v});
      assert u in w'.done <==> (u == v && v in w'.done) || (u != v && u in w'.done - {v});
      assert u in w.done <==> (u == v && v in w.done) || (u != v && u in w.done - {v});
    }
  }

  lemma HandleFlags(w: World, v: nat)
    requires CanHandle(w, v) && w.vehicles[v].phase.update.vehicleIndex == v
    ensures Handled(w, v).server.repliedCars == w.server.repliedCars[v := true]
    ensures var s := w.vehicles[v].phase.update.vehicleState;
            (s == TICK_OK || IsDone(s)) ==> v in Handled(w, v).replied || v in Handled(w, v).done
  {
  }

  lemma BroadcastTells(w: World, c: Command)
    requires Inv(w) && FlagsTell(w) && Enabled(w, Broadcasting(c))
    ensures FlagsTell(Apply(w, Broadcasting(c)))
  {
  }

  lemma SameFlags(w: World, w': World)
    requires FlagsTell(w) && w'.server.repliedCars == w.server.repliedCars && |w'.vehicles| == |w.vehicles|
    requires w'.orch.tickId == w.orch.tickId && (w.orch.tickId == 1 ==> w'.server.command == w.server.command)
    requires w.replied <= w'.replied && (w'.replied == w.replied || w.orch.tickId == 0) && w'.done == w.done
    ensures FlagsTell(w')
  {
    forall u | 0 <= u < |w'.vehicles|
      ensures FlagTells(w', u)
    {
      assert FlagTells(w, u);
      assert u in w.replied ==> u in w'.replied;
      assert Uncounted(w') == Uncounted(w);
    }
  }

  lemma RegisterTells(w: World, a: Action)
    requires Inv(w) && FlagsTell(w) && Enabled(w, a) && (a.SendCarla? || a.Enroll?)
    ensures FlagsTell(Apply(w, a))
  {
    if a.SendCarla? {
      CarlaFinds(w, a.v);
    }
    RegisterKeeps(w, a);
    SameFlags(w, Apply(w, a));
  }

  lemma RegisterKeeps(w: World, a: Action)
    requires Enabled(w, a) && (a.SendCarla? || a.Enroll?)
    ensures var w' := Apply(w, a);
            && w'.server.repliedCars == w.server.repliedCars && |w'.vehicles| == |w.vehicles|
            && w'.orch.tickId == w.orch.tickId && w'.server.command == w.server.command && w'.done == w.done
            && w'.replied == w.replied + if a.SendCarla? then {a.v} else {}
  {
  }

  lemma RestTells(w: World, a: Action)
    requires Inv(w) && FlagsTell(w) && Enabled(w, a) && !VehicleStep(a) && !a.Broadcasting?
    ensures FlagsTell(Apply(w, a))
  {
    var w' := Apply(w, a);
    forall u | 0 <= u < |w'.vehicles|
      ensures FlagTells(w', u)
    {
      assert FlagTells(w, u);
      if a.Finish? {
        AllEnrolled(w, u);
      }
    }
  }

  lemma PrivateTells(w: World, a: Action)
    requires FlagsTell(w) && Enabled(w, a) && Private(a)
    ensures FlagsTell(Apply(w, a))
  {
    var w' := Apply(w, a);
    forall u | 0 <= u < |w'.vehicles|
      ensures FlagTells(w', u)
    {
      assert FlagTells(w, u);
    }
  }

  lemma StepTells(w: World, a: Action)
    requires Inv(w) && FlagsTell(w) && Enabled(w, a)
    ensures FlagsTell(Apply(w, a))
  {
    if a.Handle? {
      HandleTells(w, a.v);
    } else if a.Broadcasting? {
      BroadcastTells(w, a.command);
    } else if a.SendCarla? || a.Enroll? {
      RegisterTells(w, a);
    } else if Private(a) {
      PrivateTells(w, a);
    } else {
      RestTells(w, a);
    }
  }

  /** In every run the flags say who has replied in the current tick. */
  lemma {:induction false} FlagsAlwaysTell(w: World, run: seq<Action>)
    requires IsStart(w) && Legal(w, run)
    ensures FlagsTell(After(w, run))
    decreases |run|
  {
    if run != [] {
      var front, a := run[..|run| - 1], run[|run| - 1];
      FlagsAlwaysTell(w, front);
      IsStartInv(w);
      RunKeepsInv(w, front);
      StepTells(After(w, front), a);
    }
  }

  // ---- Pushes to vehicles ----

  /** What an action pushes to every vehicle. */
  function Pushed(w: World, a: Action): seq<Tick> {
    match a
    case Broadcasting(c) => [Tick(w.orch.tickId + 1, c, 0)]
    case Finish => [Tick(-1, END, 0)]
    case _ => []
  }

  /** What it brings to vehicle `v`. */
  function Brought(w: World, a: Action, v: nat): seq<Tick>
    requires Enabled(w, a)
  {
    if a.Deliver? && a.v == v then [w.mail[v][a.k]] else []
  }

  function AllPushed(w: World, run: seq<Action>): seq<Tick>
    requires Legal(w, run)
    decreases |run|
  {
    if run == [] then []
    else AllPushed(w, run[..|run| - 1]) + Pushed(After(w, run[..|run| - 1]), run[|run| - 1])
  }

  function AllBrought(w: World, run: seq<Action>, v: nat): seq<Tick>
    requires Legal(w, run)
    decreases |run|
  {
    if run == [] then []
    else AllBrought(w, run[..|run| - 1], v) + Brought(After(w, run[..|run| - 1]), run[|run| - 1], v)
  }

  lemma MailNext(mail: seq<Tick>, k: nat)
    requires k < |mail|
    ensures multiset(mail[..k] + mail[k + 1..]) + multiset([mail[k]]) == multiset(mail)
  {
    assert mail == mail[..k] + [mail[k]] + mail[k + 1..];
  }

  lemma PrivateMail(w: World, a: Action, v: nat)
    requires Enabled(w, a) && Private(a) && v < |w.mail|
    ensures |Apply(w, a).mail| == |w.mail|
    ensures multiset(Apply(w, a).mail[v]) + multiset(Brought(w, a, v)) == multiset(w.mail[v])
  {
    if a.Deliver? && a.v == v {
      MailNext(w.mail[v], a.k);
    }
  }

  lemma PostedMail(mail: seq<seq<Tick>>, clients: nat, t: Tick, v: nat)
    requires v < |mail| && v < clients
    ensures |Posted(mail, clients, t)| == |mail| && Posted(mail, clients, t)[v] == mail[v] + [t]
  {
  }

  lemma OtherMail(w: World, a: Action, v: nat)
    requires Inv(w) && Enabled(w, a) && !Private(a) && v < |w.mail|
    ensures |Apply(w, a).mail| == |w.mail| && Apply(w, a).mail[v] == w.mail[v] + Pushed(w, a)
  {
    if a.Broadcasting? || a.Finish? {
      AllEnrolled(w, v);
      PostedMail(w.mail, w.server.clients, Pushed(w, a)[0], v);
    } else {
      HandlerMail(w, a);
    }
  }

  lemma HandlerMail(w: World, a: Action)
    requires Enabled(w, a) && !Private(a) && !a.Broadcasting? && !a.Finish?
    ensures Apply(w, a).mail == w.mail
  {
  }

  /** In every run, every push for a vehicle arrives once: what was pushed is, push by push, what was brought to it
      and what is still on its way. */
  lemma {:induction false} PushesArrive(w: World, run: seq<Action>, v: nat)
    requires IsStart(w) && Legal(w, run) && v < |w.vehicles|
    ensures v < |After(w, run).mail|
    ensures multiset(AllPushed(w, run)) == multiset(AllBrought(w, run, v)) + multiset(After(w, run).mail[v])
    decreases |run|
  {
    if run != [] {
      var front, a := run[..|run| - 1], run[|run| - 1];
      PushesArrive(w, front, v);
      IsStartInv(w);
      RunKeepsInv(w, front);
      MailStep(After(w, front), a, v);
      BalanceNext(AllPushed(w, front), AllBrought(w, front, v), After(w, front).mail[v],
                  Pushed(After(w, front), a), Brought(After(w, front), a, v), After(w, run).mail[v]);
    }
  }

  lemma MailStep(w: World, a: Action, v: nat)
    requires Inv(w) && Enabled(w, a) && v < |w.mail|
    ensures v < |Apply(w, a).mail|
    ensures multiset(Apply(w, a).mail[v]) + multiset(Brought(w, a, v)) == multiset(w.mail[v]) + multiset(Pushed(w, a))
  {
    if Private(a) {
      PrivateMail(w, a, v);
    } else {
      OtherMail(w, a, v);
      Sums(w.mail[v], Pushed(w, a));
    }
  }
}
