/** When a tick is certain to end, and within how many steps. */
module BarrierProgress {
  import opened Messages
  import opened IndexSets
  import opened EcloudServer
  import opened VehicleSim
  import opened Barrier
  import opened BarrierRuns

  predicate VehicleStep(a: Action) {
    !(a.Proceed? || a.Drain? || a.PushBuffers? || a.Broadcasting? || a.Finish?)
  }

  predicate VehicleSteps(run: seq<Action>) {
    forall i :: 0 <= i < |run| ==> VehicleStep(run[i])
  }

  // ---- The measure ----

  /** Steps a live vehicle still has before it; its push in flight, its call to return, its read,
      fetch, step, send and return each count one. */
  function Rank(veh: Vehicle, mail: seq<Tick>): nat {
    match veh.phase
    case Joining => 6 + |mail|
    case Returning(_) => if Quiet(veh, mail) then 1 else 6 + |mail|
    case Waiting(_) => if Quiet(veh, mail) then 0 else 5 + |mail|
    case Fetching => 4
    case Running(_) => 3
    case Sending(_) => 2
    case _ => 0
  }

  function Share(w: World, v: nat): nat
    requires |w.vehicles| == |w.mail|
  {
    if Live(w, v) then Rank(w.vehicles[v], w.mail[v]) else 0
  }

  function Total(w: World, n: nat): nat
    requires |w.vehicles| == |w.mail|
  {
    if n == 0 then 0 else Total(w, n - 1) + Share(w, n - 1)
  }

  lemma {:induction false} TotalChanges(w: World, w': World, v: nat, n: nat)
    requires |w.vehicles| == |w.mail| == |w'.vehicles| == |w'.mail| && v < |w.vehicles|
    requires forall u: nat :: u < |w.vehicles| && u != v ==> Share(w', u) == Share(w, u)
    ensures Total(w', n) == Total(w, n) + if v < n then Share(w', v) - Share(w, v) else 0
  {
    if n > 0 {
      TotalChanges(w, w', v, n - 1);
      if n - 1 >= |w.vehicles| {
        assert Share(w', n - 1) == Share(w, n - 1) == 0;
      }
    }
  }

  lemma RankFalls(veh: Vehicle, mail: seq<Tick>, a: Action, t: nat, c: Command, replied: bool,
                  control: bool, s: Server)
    requires Private(a) && PrivateEnabled(veh, mail, a) && veh.phase != Crashed && t >= 1 && c != END
    requires LiveInv(veh, mail, a.v, t, c, replied)
    ensures var (veh', mail') := PrivateStep(veh, mail, a, control, s);
            (if veh'.phase == Crashed then 0 else Rank(veh', mail')) < Rank(veh, mail)
  {
  }

  /** In an open tick every step of a live vehicle lowers the total, and no other vehicle's step
      raises it. */
  lemma StepLowersTotal(w: World, a: Action)
    requires Inv(w) && w.orch.phase == AwaitTick && Enabled(w, a) && VehicleStep(a)
    ensures var w' := Apply(w, a);
            && w'.orch.phase == AwaitTick
            && if Live(w, a.v) then Total(w', |w.vehicles|) < Total(w, |w.vehicles|)
               else Total(w', |w.vehicles|) == Total(w, |w.vehicles|)
  {
    var w' := Apply(w, a);
    assert VehicleInv(w, a.v);
    OthersKeepShare(w, a);
    TotalChanges(w, w', a.v, |w.vehicles|);
    if Private(a) {
      PrivateShareFalls(w, a);
    } else {
      HandleShareFalls(w, a.v);
    }
  }

  lemma PrivateShareFalls(w: World, a: Action)
    requires Inv(w) && w.orch.phase == AwaitTick && Enabled(w, a) && Private(a)
    ensures if Live(w, a.v) then Share(Apply(w, a), a.v) < Share(w, a.v) else Share(Apply(w, a), a.v) == Share(w, a.v)
    ensures Apply(w, a).orch.phase == AwaitTick
  {
    assert VehicleInv(w, a.v);
    if Live(w, a.v) {
      RankFalls(w.vehicles[a.v], w.mail[a.v], a, w.orch.tickId, w.server.command, a.v in w.replied, w.control,
                w.server);
    }
  }

  lemma HandleShareFalls(w: World, v: nat)
    requires Inv(w) && w.orch.phase == AwaitTick && CanHandle(w, v)
    ensures Live(w, v) && Share(Handled(w, v), v) < Share(w, v)
    ensures Handled(w, v).orch.phase == AwaitTick
  {
    assert VehicleInv(w, v);
    HandleMoves(w, v);
  }

  /** What a handler changes of the vehicles. */
  lemma HandleMoves(w: World, v: nat)
    requires CanHandle(w, v)
    ensures var w' := Handled(w, v);
            && w'.vehicles == w.vehicles[v := w.vehicles[v].(phase := Returning(w.vehicles[v].phase.update))]
            && w'.mail == w.mail && w'.orch.phase == w.orch.phase && (w'.done == w.done || w'.done == w.done + {v})
  {
  }

  lemma OthersKeepShare(w: World, a: Action)
    requires Inv(w) && w.orch.phase == AwaitTick && Enabled(w, a) && VehicleStep(a)
    ensures a.v < |w.vehicles| && (Private(a) || a.Handle?)
    ensures |Apply(w, a).vehicles| == |Apply(w, a).mail| == |w.vehicles|
    ensures forall u: nat :: u < |w.vehicles| && u != a.v ==> Share(Apply(w, a), u) == Share(w, u)
  {
    assert VehicleInv(w, a.v);
    if Private(a) {
      PrivateMoves(w, a);
    } else {
      HandleMoves(w, a.v);
    }
    SharesAlike(w, Apply(w, a), a.v);
  }

  lemma PrivateMoves(w: World, a: Action)
    requires Enabled(w, a) && Private(a)
    ensures var w' := Apply(w, a);
            && a.v < |w.vehicles| == |w'.vehicles| == |w'.mail| == |w.mail| && w'.done == w.done
            && w'.vehicles == w.vehicles[a.v := w'.vehicles[a.v]] && w'.mail == w.mail[a.v := w'.mail[a.v]]
  {
  }

  lemma SharesAlike(w: World, w': World, v: nat)
    requires |w.vehicles| == |w.mail| == |w'.vehicles| == |w'.mail| && v < |w.vehicles|
    requires w'.vehicles == w.vehicles[v := w'.vehicles[v]] && w'.mail == w.mail[v := w'.mail[v]]
    requires w'.done == w.done || w'.done == w.done + {v}
    ensures forall u: nat :: u < |w.vehicles| && u != v ==> Share(w', u) == Share(w, u)
  {
  }

  /** How many actions of the run were steps of vehicles then live. */
  function LiveSteps(w: World, run: seq<Action>): nat
    requires Legal(w, run) && VehicleSteps(run)
    decreases |run|
  {
    if run == [] then 0
    else LiveSteps(w, run[..|run| - 1]) + if Live(After(w, run[..|run| - 1]), run[|run| - 1].v) then 1 else 0
  }

  lemma {:induction false} TotalBoundsRun(w: World, run: seq<Action>)
    requires Inv(w) && w.orch.phase == AwaitTick && Legal(w, run) && VehicleSteps(run)
    ensures Inv(After(w, run)) && After(w, run).orch.phase == AwaitTick && |After(w, run).vehicles| == |w.vehicles|
    ensures LiveSteps(w, run) + Total(After(w, run), |w.vehicles|) <= Total(w, |w.vehicles|)
    decreases |run|
  {
    if run != [] {
      var front := run[..|run| - 1];
      TotalBoundsRun(w, front);
      StepLowersTotal(After(w, front), run[|run| - 1]);
      StepKeepsInv(After(w, front), run[|run| - 1]);
      StepKeepsCount(After(w, front), run[|run| - 1]);
    }
  }

  // ---- A tick that goes well ----

  predicate Uncounted(w: World) {
    w.orch.tickId == 1 && w.server.command == PULL_WAYPOINTS_AND_TICK
  }

  /** Nothing in the open tick is on its way to failing. */
  predicate SmoothVehicle(w: World, v: nat)
    requires v < |w.vehicles|
  {
    v !in w.done ==> w.vehicles[v].phase !in {Joining, Crashed} && (w.vehicles[v].phase.Returning? ==> v in w.replied)
  }

  predicate Smooth(w: World) {
    && Inv(w) && w.orch.phase == AwaitTick && !Uncounted(w)
    && (w.server.command == PULL_WAYPOINTS_AND_TICK ==> w.server.isEdge)
    && (w.orch.push.que == [] ==> !Complete(w.replied, w.done, |w.vehicles|))
    && forall v :: 0 <= v < |w.vehicles| ==> SmoothVehicle(w, v)
  }

  lemma SmoothPrivate(veh: Vehicle, mail: seq<Tick>, a: Action, t: nat, c: Command, replied: bool,
                      control: bool, s: Server)
    requires Private(a) && PrivateEnabled(veh, mail, a) && t >= 1 && c != END
    requires LiveInv(veh, mail, a.v, t, c, replied)
    requires veh.phase !in {Joining, Crashed} && (veh.phase.Returning? ==> replied)
    requires c == PULL_WAYPOINTS_AND_TICK ==> s.isEdge
    ensures var veh' := PrivateStep(veh, mail, a, control, s).0;
            veh'.phase !in {Joining, Crashed} && (veh'.phase.Returning? ==> replied)
  {
  }

  lemma SmoothAfterPrivate(w: World, a: Action)
    requires Smooth(w) && Enabled(w, a) && Private(a)
    ensures Smooth(Apply(w, a))
  {
    var w' := Apply(w, a);
    StepKeepsInv(w, a);
    forall v | 0 <= v < |w.vehicles|
      ensures SmoothVehicle(w', v)
    {
      assert SmoothVehicle(w, v) && VehicleInv(w, v);
      if v == a.v && v !in w.done {
        SmoothPrivate(w.vehicles[v], w.mail[v], a, w.orch.tickId, w.server.command, v in w.replied, w.control,
                      w.server);
      }
    }
  }

  lemma SmoothAfterHandle(w: World, v: nat)
    requires Smooth(w) && Enabled(w, Handle(v))
    ensures Smooth(Handled(w, v))
  {
    var w' := Handled(w, v);
    HandleKeepsInv(w, v);
    HandleFrame(w, v);
    HandleFinds(w, v);
    HandleTest(w, v);
    assert VehicleInv(w, v);
    forall u | 0 <= u < |w.vehicles|
      ensures SmoothVehicle(w', u)
    {
      assert SmoothVehicle(w, u);
    }
    HandleQueues(w, v);
  }

  lemma HandleQueues(w: World, v: nat)
    requires CanHandle(w, v) && w.orch.push.que == []
    ensures SendUpdate(w.server, w.vehicles[v].phase.update).1 == None ==> Handled(w, v).orch.push == w.orch.push
    requires Inv(w)
    ensures SendUpdate(w.server, w.vehicles[v].phase.update).1.Some? ==> Handled(w, v).orch.push.que != []
  {
    HandleFinds(w, v);
    HandleNotifies(w, v);
    if SendUpdate(w.server, w.vehicles[v].phase.update).1.Some? {
      CompletionIsAccepted(w, v);
    }
  }

  lemma SmoothStep(w: World, a: Action)
    requires Smooth(w) && Enabled(w, a) && VehicleStep(a)
    ensures Smooth(Apply(w, a))
  {
    OthersKeepShare(w, a);
    if Private(a) {
      SmoothAfterPrivate(w, a);
    } else {
      SmoothAfterHandle(w, a.v);
    }
  }

  lemma {:induction false} SmoothRun(w: World, run: seq<Action>)
    requires Smooth(w) && Legal(w, run) && VehicleSteps(run)
    ensures Smooth(After(w, run))
    decreases |run|
  {
    if run != [] {
      SmoothRun(w, run[..|run| - 1]);
      SmoothStep(After(w, run[..|run| - 1]), run[|run| - 1]);
    }
  }

  /** Until completion is pushed, some live vehicle can step. */
  lemma SmoothCanStep(w: World) returns (a: Action)
    requires Smooth(w) && w.orch.push.que == []
    ensures VehicleStep(a) && Enabled(w, a) && Live(w, a.v)
  {
    var n := |w.vehicles|;
    assert exists v :: v in All(n) && v !in w.replied + w.done;
    var v :| v in All(n) && v !in w.replied + w.done;
    assert VehicleInv(w, v) && SmoothVehicle(w, v);
    var veh := w.vehicles[v];
    match veh.phase {
      case Waiting(_) => a := if w.mail[v] != [] then Deliver(v, 0) else TakePush(v);
      case Fetching => a := Fetch(v);
      case Running(_) => a := Step(v, false, 0);
      case Sending(_) => a := Handle(v);
    }
  }

  // ---- A tick that cannot end ----

  /** Nobody is live, or a live vehicle's process is gone, or the first command is one that vehicles
      answer with an update no counter counts. */
  predicate Stuck(w: World, v: nat) {
    v < |w.vehicles| && v !in w.done && (Uncounted(w) || w.vehicles[v].phase == Crashed)
  }

  ghost predicate Doomed(w: World) {
    && w.orch.phase == AwaitTick && w.orch.push.que == []
    && (w.done == All(|w.vehicles|) || exists v: nat :: Stuck(w, v))
  }

  /** What a private step cannot change. */
  lemma PrivateFrame(w: World, a: Action)
    requires Private(a) && Enabled(w, a)
    ensures var w' := Apply(w, a);
            && w'.orch == w.orch && w'.server == w.server && w'.done == w.done && w'.labels == w.labels
            && |w'.vehicles| == |w.vehicles|
            && forall v: nat :: v < |w.vehicles| && w.vehicles[v].phase == Crashed ==> w'.vehicles[v].phase == Crashed
  {
  }

  lemma DoomedPrivate(w: World, a: Action)
    requires Doomed(w) && Enabled(w, a) && Private(a)
    ensures Doomed(Apply(w, a)) && Apply(w, a).labels == w.labels
  {
    var w' := Apply(w, a);
    PrivateFrame(w, a);
    if w.done != All(|w.vehicles|) {
      var v: nat :| Stuck(w, v);
      assert Stuck(w', v);
    }
  }

  /** The one awaited never counts, so the counters never reach the number of cars. */
  lemma StuckHandle(w: World, v: nat, x: nat)
    requires Inv(w) && w.orch.phase == AwaitTick && CanHandle(w, v) && Stuck(w, x)
    ensures Stuck(Handled(w, v), x) && SendUpdate(w.server, w.vehicles[v].phase.update).1 == None
  {
    assert VehicleInv(w, v) && VehicleInv(w, x);
    HandleFinds(w, v);
    HandleFrame(w, v);
    HandleTest(w, v);
    assert x in All(|w.vehicles|);
  }

  lemma DoomedHandle(w: World, v: nat)
    requires Inv(w) && Doomed(w) && CanHandle(w, v)
    ensures Doomed(Handled(w, v)) && Handled(w, v).labels == w.labels
  {
    HandleFinds(w, v);
    assert v in All(|w.vehicles|);
    var x: nat :| Stuck(w, x);
    StuckHandle(w, v, x);
    HandleFrame(w, v);
    HandleQueues(w, v);
    assert Stuck(Handled(w, v), x);
  }

  /** In an open tick whose completion was not pushed, only vehicles can step. */
  lemma OnlyVehiclesStep(w: World, a: Action)
    requires Inv(w) && w.orch.phase == AwaitTick && w.orch.push.que == [] && Enabled(w, a)
    ensures Private(a) || a.Handle?
  {
    forall v | 0 <= v < |w.vehicles|
      ensures w.vehicles[v].phase !in {Unregistered, Registered}
    {
      assert VehicleInv(w, v);
    }
  }

  lemma DoomedStep(w: World, a: Action)
    requires Inv(w) && Doomed(w) && Enabled(w, a)
    ensures Doomed(Apply(w, a)) && Apply(w, a).labels == w.labels
  {
    OnlyVehiclesStep(w, a);
    if a.Handle? {
      DoomedHandle(w, a.v);
    } else {
      DoomedPrivate(w, a);
    }
  }

  lemma {:induction false} DoomedForever(w: World, run: seq<Action>)
    requires Inv(w) && Doomed(w) && Legal(w, run)
    ensures Inv(After(w, run)) && Doomed(After(w, run)) && After(w, run).labels == w.labels
    decreases |run|
  {
    if run != [] {
      DoomedForever(w, run[..|run| - 1]);
      DoomedStep(After(w, run[..|run| - 1]), run[|run| - 1]);
      StepKeepsInv(After(w, run[..|run| - 1]), run[|run| - 1]);
    }
  }

  // ---- Which ticks are certain to end ----

  /** What the orchestrator could look at before it broadcasts command `c`: someone is live, no live
      vehicle is still inside its last call or gone, and waypoint ticks are for edge scenarios, not first. */
  predicate Promising(w: World, c: Command) {
    && !(w.done == All(|w.vehicles|))
    && (forall v :: 0 <= v < |w.vehicles| ==> ReadyVehicle(w, v))
    && (c == PULL_WAYPOINTS_AND_TICK ==> w.orch.tickId >= 1 && w.server.isEdge)
  }

  predicate ReadyVehicle(w: World, v: nat)
    requires v < |w.vehicles|
  {
    v in w.done || !(w.vehicles[v].phase in {Joining, Crashed} || w.vehicles[v].phase.Returning?)
  }

  lemma PromisingIsSmooth(w: World, c: Command)
    requires Inv(w) && Enabled(w, Broadcasting(c)) && Promising(w, c)
    ensures Smooth(Ticked(w, c)) && Ticked(w, c).orch.push.que == []
  {
    BroadcastKeepsInv(w, c);
    var w' := Ticked(w, c);
    forall v | 0 <= v < |w.vehicles|
      ensures SmoothVehicle(w', v)
    {
      assert ReadyVehicle(w, v);
    }
  }

  lemma {:induction false} TotalAtTick(w: World, c: Command, n: nat)
    requires Inv(w) && Enabled(w, Broadcasting(c)) && Promising(w, c) && n <= |w.vehicles|
    ensures Total(Ticked(w, c), n) <= 6 * n
  {
    if n > 0 {
      TotalAtTick(w, c, n - 1);
      assert ReadyVehicle(w, n - 1);
      AllEnrolled(w, n - 1);
      assert VehicleInv(w, n - 1);
    }
  }

  lemma TickBound(w: World, c: Command, run: seq<Action>)
    requires Inv(w) && Enabled(w, Broadcasting(c)) && Promising(w, c)
    requires Legal(Ticked(w, c), run) && VehicleSteps(run)
    ensures var now := After(Ticked(w, c), run);
            Smooth(now) && LiveSteps(Ticked(w, c), run) + Total(now, |now.vehicles|) <= 6 * w.server.numCars
  {
    PromisingIsSmooth(w, c);
    SmoothRun(Ticked(w, c), run);
    TotalBoundsRun(Ticked(w, c), run);
    TotalAtTick(w, c, |w.vehicles|);
  }

  lemma PushedLabel(w: World, now: World)
    requires Inv(w) && w.orch.phase == Ready && Smooth(now) && now.orch.tickId == w.orch.tickId + 1
    requires now.orch.push.que != []
    ensures now.labels == w.labels + [Label(w.orch.tickId + 1)]
  {
  }

  /** Progress: after a promising broadcast, live vehicles make at most six steps each, in whatever
      order, and whenever completion has not been pushed one of them can step.  So every schedule
      that keeps serving live vehicles completes the tick within 6 * numCars of their steps. */
  lemma TickEnds(w: World, c: Command, run: seq<Action>) returns (a: Action)
    requires Inv(w) && Enabled(w, Broadcasting(c)) && Promising(w, c)
    requires Legal(Ticked(w, c), run) && VehicleSteps(run)
    ensures LiveSteps(Ticked(w, c), run) <= 6 * w.server.numCars
    ensures var now := After(Ticked(w, c), run);
            if now.orch.push.que == [] then
              && VehicleStep(a) && Enabled(now, a) && Live(now, a.v)
              && LiveSteps(Ticked(w, c), run) < 6 * w.server.numCars
            else
              now.labels == w.labels + [Label(w.orch.tickId + 1)]
  {
    var now := After(Ticked(w, c), run);
    TickBound(w, c, run);
    a := Proceed;
    if now.orch.push.que == [] {
      a := SmoothCanStep(now);
      StepLowersTotal(now, a);
    } else {
      VehicleStepsKeepTick(Ticked(w, c), run);
      PushedLabel(w, now);
    }
  }

  lemma {:induction false} VehicleStepsKeepTick(w: World, run: seq<Action>)
    requires Legal(w, run) && VehicleSteps(run)
    ensures After(w, run).orch.tickId == w.orch.tickId
    decreases |run|
  {
    if run != [] {
      VehicleStepsKeepTick(w, run[..|run| - 1]);
      TickStep(After(w, run[..|run| - 1]), run[|run| - 1]);
    }
  }

  /** Every other broadcast can end in a state from which no completion is ever pushed. */
  lemma UnpromisingCanHang(w: World, c: Command) returns (run: seq<Action>)
    requires Inv(w) && Enabled(w, Broadcasting(c)) && !Promising(w, c)
    ensures Legal(Ticked(w, c), run) && VehicleSteps(run) && Doomed(After(Ticked(w, c), run))
  {
    var w' := Ticked(w, c);
    run := [];
    assert w'.done == w.done && w'.vehicles == w.vehicles && w'.orch.push == w.orch.push;
    if w.done != All(|w.vehicles|) {
      var v: nat :| v in All(|w.vehicles|) && v !in w.done;
      if w.orch.tickId == 0 && c == PULL_WAYPOINTS_AND_TICK {
        assert Stuck(w', v);
      } else if forall v :: 0 <= v < |w.vehicles| ==> ReadyVehicle(w, v) {
        run := NoEmulator(w, c, v);
      } else {
        v :| v < |w.vehicles| && !ReadyVehicle(w, v);
        if w.vehicles[v].phase == Crashed {
          assert Stuck(w', v);
        } else {
          var last := LastCall(w.vehicles[v].phase, v);
          BroadcastKeepsInv(w, c);
          MailAtTick(w, c, v);
          run := LateReturnDooms(w', v, last);
        }
      }
    }
  }

  /** A live vehicle between its calls when a tick starts. */
  lemma RestingVehicle(w: World, v: nat)
    requires Inv(w) && w.orch.phase == Ready && w.orch.tickId >= 1 && v < |w.vehicles| && v !in w.done
        && ReadyVehicle(w, v)
    ensures w.vehicles[v].phase == Waiting(false) && w.vehicles[v].push.que == [] && w.mail[v] == []
    ensures w.vehicles[v].tickId == Label(w.orch.tickId) && w.vehicles[v].push.lastTickId <= w.orch.tickId
    ensures v < w.server.clients && !w.vehicles[v].reportedDone
  {
    AllEnrolled(w, v);
    assert VehicleInv(w, v);
  }

  lemma EmulatorMissing(w: World, v: nat, t: Tick)
    requires Inv(w) && w.orch.phase == AwaitTick && w.orch.push.que == [] && !w.server.isEdge && v < |w.vehicles|
        && v !in w.done
    requires w.vehicles[v].phase == Waiting(false) && w.vehicles[v].push.que == [] && w.mail[v] == [t]
    requires t.command == PULL_WAYPOINTS_AND_TICK && t.tickId != w.vehicles[v].tickId
        && t.tickId > w.vehicles[v].push.lastTickId
    ensures Enabled(w, Deliver(v, 0)) && Enabled(Apply(w, Deliver(v, 0)), TakePush(v))
    ensures Enabled(Apply(Apply(w, Deliver(v, 0)), TakePush(v)), Fetch(v))
    ensures Doomed(Apply(Apply(Apply(w, Deliver(v, 0)), TakePush(v)), Fetch(v)))
  {
    var w1 := Apply(w, Deliver(v, 0));
    assert w1.vehicles[v].push.que == [t] && w1.orch == w.orch && w1.done == w.done && w1.server == w.server;
    var w2 := Apply(w1, TakePush(v));
    assert w2.vehicles[v].phase == Fetching && w2.orch == w.orch && w2.done == w.done && w2.server == w.server;
    var w3 := Apply(w2, Fetch(v));
    assert w3.vehicles[v].phase == Crashed && w3.orch == w.orch && w3.done == w.done && |w3.vehicles| == |w.vehicles|;
    assert Stuck(w3, v);
  }

  lemma TickArrives(w: World, c: Command, v: nat)
    requires Inv(w) && w.orch.phase == Ready && w.orch.tickId >= 1 && c != END
    requires v < |w.vehicles| && v !in w.done && ReadyVehicle(w, v)
    ensures var w', t := Ticked(w, c), Tick(w.orch.tickId + 1, c, INVALID_TIME);
            && Inv(w') && w'.orch.phase == AwaitTick && w'.orch.push.que == [] && w'.server.isEdge == w.server.isEdge
            && w'.done == w.done && w'.vehicles == w.vehicles && w'.mail[v] == [t]
            && w'.vehicles[v].phase == Waiting(false) && w'.vehicles[v].push.que == []
            && t.tickId != w'.vehicles[v].tickId && t.tickId > w'.vehicles[v].push.lastTickId
  {
    RestingVehicle(w, v);
    BroadcastKeepsInv(w, c);
  }

  lemma ThreeSteps(w: World, a: Action, b: Action, c: Action) returns (run: seq<Action>)
    requires Enabled(w, a) && Enabled(Apply(w, a), b) && Enabled(Apply(Apply(w, a), b), c)
    requires VehicleStep(a) && VehicleStep(b) && VehicleStep(c)
    ensures Legal(w, run) && VehicleSteps(run) && After(w, run) == Apply(Apply(Apply(w, a), b), c)
  {
    run := TwoSteps(w, a, b);
    Snoc(w, run, c);
    run := run + [c];
  }

  /** Outside an edge scenario, a waypoint tick ends a client that fetches: it has no network emulator. */
  lemma NoEmulator(w: World, c: Command, v: nat) returns (run: seq<Action>)
    requires Inv(w) && w.orch.phase == Ready && w.orch.tickId >= 1 && v < |w.vehicles| && v !in w.done
        && ReadyVehicle(w, v)
    requires c == PULL_WAYPOINTS_AND_TICK && !w.server.isEdge
    ensures Legal(Ticked(w, c), run) && VehicleSteps(run) && Doomed(After(Ticked(w, c), run))
  {
    TickArrives(w, c, v);
    EmulatorMissing(Ticked(w, c), v, Tick(w.orch.tickId + 1, c, INVALID_TIME));
    run := ThreeSteps(Ticked(w, c), Deliver(v, 0), TakePush(v), Fetch(v));
  }

  function LastCall(phase: Phase, v: nat): Action {
    if phase == Joining then EndJoin(v) else EndSend(v)
  }

  lemma MailAtTick(w: World, c: Command, v: nat)
    requires Inv(w) && w.orch.phase == Ready && v < |w.vehicles| && v !in w.done
    ensures |Ticked(w, c).mail[v]| == 1 && Ticked(w, c).vehicles == w.vehicles && Ticked(w, c).done == w.done
    ensures Ticked(w, c).orch.phase == AwaitTick && Ticked(w, c).orch.push.que == []
  {
    AllEnrolled(w, v);
    assert VehicleInv(w, v);
  }

  lemma TwoSteps(w: World, a: Action, b: Action) returns (run: seq<Action>)
    requires Enabled(w, a) && Enabled(Apply(w, a), b) && VehicleStep(a) && VehicleStep(b)
    ensures Legal(w, run) && VehicleSteps(run) && After(w, run) == Apply(Apply(w, a), b)
  {
    run := [a, b];
    Snoc(w, [], a);
    assert [] + [a] == [a];
    Snoc(w, [a], b);
    assert [a] + [b] == run;
  }

  lemma LateReturnCrashes(w: World, v: nat, last: Action)
    requires Inv(w) && w.orch.phase == AwaitTick && v < |w.vehicles| && v !in w.done && |w.mail[v]| == 1
    requires last == LastCall(w.vehicles[v].phase, v)
    requires w.vehicles[v].phase == Joining || w.vehicles[v].phase.Returning?
    ensures Enabled(w, Deliver(v, 0)) && Enabled(Apply(w, Deliver(v, 0)), last)
    ensures var w' := Apply(Apply(w, Deliver(v, 0)), last);
            && w'.vehicles[v].phase == Crashed && w'.done == w.done && w'.orch == w.orch
            && |w'.vehicles| == |w.vehicles|
  {
    assert VehicleInv(w, v);
  }

  /** The next tick reaches a vehicle before its previous call returned: its assertion fails. */
  lemma LateReturnDooms(w: World, v: nat, last: Action) returns (run: seq<Action>)
    requires Inv(w) && w.orch.phase == AwaitTick && w.orch.push.que == []
    requires v < |w.vehicles| && v !in w.done && |w.mail[v]| == 1
    requires w.vehicles[v].phase == Joining || w.vehicles[v].phase.Returning?
    requires last == LastCall(w.vehicles[v].phase, v)
    ensures Legal(w, run) && VehicleSteps(run) && Doomed(After(w, run))
  {
    LateReturnCrashes(w, v, last);
    StuckIsDoomed(Apply(Apply(w, Deliver(v, 0)), last), v);
    run := TwoSteps(w, Deliver(v, 0), last);
  }

  lemma StuckIsDoomed(w: World, v: nat)
    requires w.orch.phase == AwaitTick && w.orch.push.que == [] && Stuck(w, v)
    ensures Doomed(w)
  {
  }

  /** A broadcast is certain not to hang exactly when it was promising. */
  lemma TickCertainIffPromising(w: World, c: Command)
    requires Inv(w) && Enabled(w, Broadcasting(c))
    ensures Promising(w, c) <==>
              forall run :: Legal(Ticked(w, c), run) && VehicleSteps(run) ==> !Doomed(After(Ticked(w, c), run))
  {
    if Promising(w, c) {
      PromisingIsSmooth(w, c);
      forall run | Legal(Ticked(w, c), run) && VehicleSteps(run)
        ensures !Doomed(After(Ticked(w, c), run))
      {
        SmoothRun(Ticked(w, c), run);
        SmoothIsNotDoomed(After(Ticked(w, c), run));
      }
    } else {
      var run := UnpromisingCanHang(w, c);
    }
  }

  lemma SmoothIsNotDoomed(w: World)
    requires Smooth(w)
    ensures !Doomed(w)
  {
    if w.done == All(|w.vehicles|) {
      DoneIsComplete(w.replied, w.done, |w.vehicles|);
    }
    forall v: nat
      ensures !Stuck(w, v)
    {
      NotStuck(w, v);
    }
  }

  lemma DoneIsComplete(replied: set<nat>, done: set<nat>, n: nat)
    requires replied <= All(n) && done == All(n)
    ensures Complete(replied, done, n)
  {
  }

  lemma NotStuck(w: World, v: nat)
    requires Smooth(w)
    ensures !Stuck(w, v)
  {
    if v < |w.vehicles| {
      assert SmoothVehicle(w, v);
    }
  }

  // ---- Such states are reached ----

  lemma Snoc(w: World, run: seq<Action>, a: Action)
    requires Legal(w, run) && Enabled(After(w, run), a)
    ensures Legal(w, run + [a]) && After(w, run + [a]) == Apply(After(w, run), a)
  {
    assert (run + [a])[..|run|] == run;
  }

  /** One car, nothing in flight; `replies` replies counted towards the current phase. */
  predicate OneCar(w: World, phase: OrchPhase, tickId: nat, car: Phase, replies: nat) {
    && Shaped(w) && |w.vehicles| == 1 && w.mail[0] == []
    && w.vehicles[0].phase == car && w.vehicles[0].tickId == 0 && !w.vehicles[0].reportedDone
    && w.vehicles[0].push.que == [] && w.vehicles[0].push.lastTickId == tickId
    && w.orch.phase == phase && w.orch.tickId == tickId == w.server.tickId
    && w.server.clients == 1 && w.server.numCompleted == 0 && w.server.numReplied == replies && w.done == {}
  }

  predicate NoBroadcast(run: seq<Action>) {
    forall i :: 0 <= i < |run| ==> !run[i].Broadcasting?
  }

  lemma OneCarReports() returns (run: seq<Action>)
    ensures Legal(Start(1, false, false), run) && VehicleSteps(run)
        && OneCar(After(Start(1, false, false), run), AwaitRegistration, 0, Joining, 1)
    ensures var w := After(Start(1, false, false), run); |w.orch.push.que| == |w.server.pending| == 1
  {
    var w := Start(1, false, false);
    run := [];
    Snoc(w, run, Enroll(0));
    run := run + [Enroll(0)];
    Snoc(w, run, SendCarla(0));
    run := run + [SendCarla(0)];
  }

  lemma OneCarRegisters() returns (run: seq<Action>)
    ensures Legal(Start(1, false, false), run) && VehicleSteps(run)
        && OneCar(After(Start(1, false, false), run), AwaitRegistration, 0, Waiting(true), 1)
    ensures var w := After(Start(1, false, false), run); |w.orch.push.que| == |w.server.pending| == 1
  {
    run := OneCarReports();
    Snoc(Start(1, false, false), run, EndJoin(0));
    run := run + [EndJoin(0)];
  }

  lemma OneCarDrains(w: World, car: Phase)
    requires OneCar(w, AwaitRegistration, 0, car, 1) && |w.server.pending| == |w.orch.push.que| == 1
    ensures Enabled(w, Proceed) && Enabled(Apply(w, Proceed), Drain)
    ensures var w' := Apply(Apply(w, Proceed), Drain);
            OneCar(w', Ready, 0, car, 0) && w'.orch.push.que == []
  {
  }

  lemma OneCarReady() returns (run: seq<Action>)
    ensures Legal(Start(1, false, false), run) && NoBroadcast(run)
    ensures OneCar(After(Start(1, false, false), run), Ready, 0, Waiting(true), 0)
    ensures After(Start(1, false, false), run).orch.push.que == []
  {
    var w := Start(1, false, false);
    run := OneCarRegisters();
    OneCarDrains(After(w, run), Waiting(true));
    Snoc(w, run, Proceed);
    run := run + [Proceed];
    Snoc(w, run, Drain);
    run := run + [Drain];
  }

  lemma OneCarTakesTick(w: World)
    requires OneCar(w, Ready, 0, Waiting(true), 0) && w.orch.push.que == []
    ensures Enabled(w, Broadcasting(TICK)) && Enabled(Ticked(w, TICK), Deliver(0, 0))
    ensures Enabled(Apply(Ticked(w, TICK), Deliver(0, 0)), TakePush(0))
    ensures var w' := Apply(Apply(Ticked(w, TICK), Deliver(0, 0)), TakePush(0));
            OneCar(w', AwaitTick, 1, Running(TICK), 0) && w'.orch.push.que == []
  {
    var t := Tick(1, TICK, INVALID_TIME);
    var ticked := Ticked(w, TICK);
    assert ticked.mail[0] == [t];
    var delivered := Apply(ticked, Deliver(0, 0));
    assert delivered.mail[0] == [] && delivered.vehicles[0].push.que == [t];
  }

  lemma OneCarTicked() returns (run: seq<Action>)
    ensures Legal(Start(1, false, false), run)
    ensures OneCar(After(Start(1, false, false), run), AwaitTick, 1, Running(TICK), 0)
    ensures After(Start(1, false, false), run).orch.push.que == []
  {
    var w := Start(1, false, false);
    run := OneCarReady();
    OneCarTakesTick(After(w, run));
    Snoc(w, run, Broadcasting(TICK));
    run := run + [Broadcasting(TICK)];
    Snoc(w, run, Deliver(0, 0));
    run := run + [Deliver(0, 0)];
    Snoc(w, run, TakePush(0));
    run := run + [TakePush(0)];
  }

  lemma OneCarSends(w: World)
    requires OneCar(w, AwaitTick, 1, Running(TICK), 0) && w.orch.push.que == []
    ensures Enabled(w, Step(0, false, 0))
    ensures var u := VehicleUpdate(0, 0, TICK_OK, 0);
            OneCar(Apply(w, Step(0, false, 0)), AwaitTick, 1, Sending(u), 0)
    ensures Apply(w, Step(0, false, 0)).orch == w.orch
  {
  }

  lemma OneCarReturns(w: World)
    requires Inv(w) && OneCar(w, AwaitTick, 1, Sending(VehicleUpdate(0, 0, TICK_OK, 0)), 0) && w.orch.push.que == []
    ensures Enabled(w, Handle(0)) && Enabled(Apply(w, Handle(0)), Proceed)
    ensures OneCar(Apply(Apply(w, Handle(0)), Proceed), Ready, 1, Returning(VehicleUpdate(0, 0, TICK_OK, 0)), 1)
  {
    HandleQueues(w, 0);
  }

  /** The queue-empty assertion after a registration fails on some run too: the first tick arrives before the
      registration call returns. */
  lemma JoinAssertionCanFail() returns (run: seq<Action>)
    ensures Legal(Start(1, false, false), run) && Doomed(After(Start(1, false, false), run))
    ensures var w := After(Start(1, false, false), run);
            |w.vehicles| == 1 && w.orch.tickId == 1 && w.vehicles[0].phase == Crashed && run[|run| - 1] == EndJoin(0)
  {
    var w := Start(1, false, false);
    run := JoiningReady();
    StartInv(1, false, false);
    RunKeepsInv(w, run);
    MailAtTick(After(w, run), TICK, 0);
    run := JoinsLate(w, run);
  }

  /** One car's report is drained before its registration call returned. */
  lemma JoiningReady() returns (run: seq<Action>)
    ensures Legal(Start(1, false, false), run)
    ensures OneCar(After(Start(1, false, false), run), Ready, 0, Joining, 0)
    ensures After(Start(1, false, false), run).orch.push.que == []
  {
    var w := Start(1, false, false);
    run := OneCarReports();
    OneCarDrains(After(w, run), Joining);
    Snoc(w, run, Proceed);
    run := run + [Proceed];
    Snoc(w, run, Drain);
    run := run + [Drain];
  }

  lemma JoinsLate(w: World, ready: seq<Action>) returns (run: seq<Action>)
    requires Inv(w) && Legal(w, ready) && Inv(After(w, ready)) && OneCar(After(w, ready), Ready, 0, Joining, 0)
    requires |Ticked(After(w, ready), TICK).mail[0]| == 1 && After(w, ready).orch.push.que == []
    ensures Legal(w, run) && Doomed(After(w, run)) && run != [] && run[|run| - 1] == EndJoin(0)
    ensures var now := After(w, run); |now.vehicles| == 1 && now.orch.tickId == 1 && now.vehicles[0].phase == Crashed
  {
    run := ready;
    BroadcastKeepsInv(After(w, run), TICK);
    Snoc(w, run, Broadcasting(TICK));
    run := run + [Broadcasting(TICK)];
    LateReturnCrashes(After(w, run), 0, EndJoin(0));
    StuckIsDoomed(Apply(Apply(After(w, run), Deliver(0, 0)), EndJoin(0)), 0);
    Snoc(w, run, Deliver(0, 0));
    run := run + [Deliver(0, 0)];
    Snoc(w, run, EndJoin(0));
    run := run + [EndJoin(0)];
  }

  /** One car registers and replies to tick 1; the orchestrator proceeds before the car's call returns. */
  lemma LateReturnReached() returns (run: seq<Action>)
    ensures Legal(Start(1, false, false), run)
    ensures OneCar(After(Start(1, false, false), run), Ready, 1, Returning(VehicleUpdate(0, 0, TICK_OK, 0)), 1)
  {
    var w := Start(1, false, false);
    run := OneCarTicked();
    OneCarSends(After(w, run));
    Snoc(w, run, Step(0, false, 0));
    run := run + [Step(0, false, 0)];
    StartInv(1, false, false);
    RunKeepsInv(w, run);
    OneCarReturns(After(w, run));
    Snoc(w, run, Handle(0));
    run := run + [Handle(0)];
    Snoc(w, run, Proceed);
    run := run + [Proceed];
  }

  /** So the queue-empty assertion after a send does fail on some run. */
  lemma SendAssertionCanFail() returns (run: seq<Action>)
    ensures Legal(Start(1, false, false), run) && Doomed(After(Start(1, false, false), run))
    ensures var w := After(Start(1, false, false), run);
            |w.vehicles| == 1 && 0 !in w.done && w.vehicles[0].phase == Crashed
  {
    var w := Start(1, false, false);
    run := LateReturnReached();
    StartInv(1, false, false);
    RunKeepsInv(w, run);
    MailAtTick(After(w, run), TICK, 0);
    Snoc(w, run, Broadcasting(TICK));
    run := run + [Broadcasting(TICK)];
    RunKeepsInv(w, run);
    LateReturnCrashes(After(w, run), 0, EndSend(0));
    StuckIsDoomed(Apply(Apply(After(w, run), Deliver(0, 0)), EndSend(0)), 0);
    Snoc(w, run, Deliver(0, 0));
    run := run + [Deliver(0, 0)];
    Snoc(w, run, EndSend(0));
    run := run + [EndSend(0)];
  }
}
