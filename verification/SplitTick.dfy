/** A tick of the barrier with split update handlers: vehicles step as before, and the handlers of
    `SplitUpdate` run in between, each while its vehicle's call is pending. */
module SplitTick {
  import opened Messages
  import opened IndexSets
  import opened EcloudServer
  import opened VehicleSim
  import opened Barrier
  import opened BarrierRuns
  import opened BarrierProgress
  import SplitUpdate

  /** The first `n` vehicles not yet accounted for. */
  function Awaited(w: World, n: nat): (r: seq<nat>)
    ensures forall i :: 0 <= i < |r| ==> r[i] < n && r[i] !in w.replied && r[i] !in w.done
  {
    if n == 0 then []
    else if n - 1 in w.replied || n - 1 in w.done then Awaited(w, n - 1)
    else Awaited(w, n - 1) + [n - 1]
  }

  lemma {:induction false} AwaitedAre(w: World, n: nat)
    ensures Distinct(Awaited(w, n))
    ensures forall v: nat :: v in Awaited(w, n) <==> v < n && v !in w.replied && v !in w.done
  {
    if n > 0 { AwaitedAre(w, n - 1); }
  }

  lemma AwaitedCount(w: World)
    requires w.replied <= All(|w.vehicles|) && w.done <= All(|w.vehicles|) && w.replied !! w.done
    ensures |w.replied| + |w.done| + |Awaited(w, |w.vehicles|)| == |w.vehicles|
  {
    var awaited := Awaited(w, |w.vehicles|);
    AwaitedAre(w, |w.vehicles|);
    DistinctSize(awaited);
    assert All(|w.vehicles|) == (w.replied + w.done) + Elements(awaited);
    assert (w.replied + w.done) !! Elements(awaited);
  }

  /** An open tick whose command vehicles answer with a counted update. */
  predicate Opened(w: World) {
    Inv(w) && w.orch.phase == AwaitTick && w.orch.push.que == [] && !Uncounted(w)
  }

  /** An update of the open tick that vehicle `v` may send and the server counts. */
  predicate CountedUpdate(w: World, v: nat, u: VehicleUpdate) {
    && u.vehicleIndex == v && v < MAX_CARS && u.tickId == Label(w.orch.tickId)
    && (u.vehicleState == TICK_OK || IsDone(u.vehicleState))
  }

  /** One such update for each vehicle in `vs`. */
  predicate CountedUpdates(w: World, vs: seq<nat>, us: seq<VehicleUpdate>) {
    |us| == |vs| && forall h :: 0 <= h < |us| ==> CountedUpdate(w, vs[h], us[h])
  }

  /** In an open tick, any counted updates of the vehicles still awaited fill the cars, and their
      completion is new to the orchestrator. */
  lemma AwaitedFillTick(w: World, us: seq<VehicleUpdate>)
    requires Opened(w) && CountedUpdates(w, Awaited(w, |w.vehicles|), us)
    ensures SplitUpdate.Tickful(w.server, us) && w.orch.push.lastTickId != Label(w.orch.tickId)
    ensures forall h :: 0 <= h < |us| ==> us[h].tickId == Label(w.orch.tickId)
  {
    AwaitedCount(w);
    forall h | 0 <= h < |us|
      ensures us[h].vehicleIndex < MAX_CARS && us[h].tickId == Label(w.orch.tickId)
      ensures us[h].vehicleState == TICK_OK || IsDone(us[h].vehicleState)
    {
      assert CountedUpdate(w, Awaited(w, |w.vehicles|)[h], us[h]);
    }
  }

  // ---- The tick as a transition system ----

  /** `updates[h]` is what handler `h` was sent, once it has counted it. */
  datatype Split = Split(vehicles: seq<Vehicle>, mail: seq<seq<Tick>>, handlers: SplitUpdate.State,
                         updates: seq<VehicleUpdate>)

  datatype Act = Vehicular(a: Action) | Handler(m: SplitUpdate.Move)

  /** Handler `h` serves the `h`-th awaited vehicle. */
  function Awaiting(w: World): (vs: seq<nat>)
    ensures forall i :: 0 <= i < |vs| ==> vs[i] < |w.vehicles|
  {
    Awaited(w, |w.vehicles|)
  }

  /** Placeholders until the handlers are called. */
  function Blank(w: World): (us: seq<VehicleUpdate>)
    requires |w.vehicles| <= MAX_CARS
    ensures CountedUpdates(w, Awaiting(w), us)
  {
    seq(|Awaiting(w)|, h requires 0 <= h < |Awaiting(w)| =>
        VehicleUpdate(Label(w.orch.tickId), Awaiting(w)[h], TICK_OK, 0))
  }

  function Opening(w: World): Split
    requires Opened(w)
  {
    Split(w.vehicles, w.mail, SplitUpdate.Begin(w.server, Blank(w)), Blank(w))
  }

  predicate SplitShaped(w: World, x: Split) {
    && |x.vehicles| == |x.mail| == |w.vehicles| && x.handlers.server.Valid()
    && |x.handlers.pc| == |x.updates| == |Awaiting(w)|
    && forall h :: 0 <= h < |x.updates| ==> x.updates[h].vehicleIndex < MAX_CARS
  }

  predicate CanAct(w: World, x: Split, act: Act) {
    SplitShaped(w, x) &&
    match act
    case Vehicular(a) => Private(a) && a.v < |x.vehicles| && PrivateEnabled(x.vehicles[a.v], x.mail[a.v], a)
    case Handler(m) => SplitUpdate.CanMove(x.handlers, m)
                       && x.vehicles[Awaiting(w)[m.h]].phase.Sending?
                       && x.vehicles[Awaiting(w)[m.h]].phase.update.vehicleIndex < MAX_CARS
  }

  /** What a handler is sent is read when it counts. */
  function Told(w: World, x: Split, m: SplitUpdate.Move): seq<VehicleUpdate>
    requires CanAct(w, x, Handler(m))
  {
    if m.Count? then x.updates[m.h := x.vehicles[Awaiting(w)[m.h]].phase.update] else x.updates
  }

  /** The call returns once the handler has made its test. */
  function Acted(w: World, x: Split, act: Act): Split
    requires CanAct(w, x, act)
  {
    match act
    case Vehicular(a) =>
      var (veh, mail) := PrivateStep(x.vehicles[a.v], x.mail[a.v], a, w.control, x.handlers.server);
      x.(vehicles := x.vehicles[a.v := veh], mail := x.mail[a.v := mail])
    case Handler(m) =>
      var v := Awaiting(w)[m.h];
      x.(handlers := SplitUpdate.Next(x.handlers, Told(w, x, m), m), updates := Told(w, x, m),
         vehicles := if m.Test? then x.vehicles[v := x.vehicles[v].(phase := Returning(x.vehicles[v].phase.update))]
                     else x.vehicles)
  }

  predicate LegalActs(w: World, run: seq<Act>)
    requires Opened(w)
    decreases |run|, 0
  {
    run == [] ||
    (LegalActs(w, run[..|run| - 1]) && CanAct(w, AfterActs(w, run[..|run| - 1]), run[|run| - 1]))
  }

  function AfterActs(w: World, run: seq<Act>): Split
    requires Opened(w) && LegalActs(w, run)
    decreases |run|, 1
  {
    if run == [] then Opening(w) else Acted(w, AfterActs(w, run[..|run| - 1]), run[|run| - 1])
  }

  // ---- What such a run amounts to ----

  function MoveOf(act: Act): seq<SplitUpdate.Move> {
    if act.Handler? then [act.m] else []
  }

  /** The handlers' moves. */
  function Moves(run: seq<Act>): seq<SplitUpdate.Move> {
    if run == [] then [] else Moves(run[..|run| - 1]) + MoveOf(run[|run| - 1])
  }

  function ActionOf(w: World, act: Act): seq<Action> {
    match act
    case Vehicular(a) => [a]
    case Handler(m) => if m.Test? && m.h < |Awaiting(w)| then [Handle(Awaiting(w)[m.h])] else []
  }

  /** The same run with every handler whole, at its test. */
  function Whole(w: World, run: seq<Act>): seq<Action> {
    if run == [] then [] else Whole(w, run[..|run| - 1]) + ActionOf(w, run[|run| - 1])
  }

  /** Where handler `h` and its vehicle stand; `a` is the world with whole handlers. */
  predicate Stage(w: World, x: Split, a: World, h: nat)
    requires SplitShaped(w, x) && h < |Awaiting(w)|
  {
    && (x.handlers.pc[h] == SplitUpdate.Left <==>
        Awaiting(w)[h] in a.replied || Awaiting(w)[h] in a.done)
    && (x.handlers.pc[h] !in {SplitUpdate.Entered, SplitUpdate.Left} ==>
        x.vehicles[Awaiting(w)[h]].phase == Sending(x.updates[h]))
  }

  predicate Stages(w: World, x: Split, a: World)
    requires SplitShaped(w, x)
  {
    forall h :: 0 <= h < |Awaiting(w)| ==> Stage(w, x, a, h)
  }

  /** What no step of the tick changes, but for the counters. */
  predicate SameTick(w: World, a: World) {
    && a.orch.phase == AwaitTick && a.orch.tickId == w.orch.tickId && a.control == w.control
    && a.server.command == w.server.command && |a.vehicles| == |w.vehicles|
    && SameBuffers(w.server, a.server)
  }

  predicate SameBuffers(s: Server, s': Server) {
    s'.waypoints == s.waypoints && s'.isEdge == s.isEdge
  }

  ghost predicate Related(w: World, x: Split, a: World) {
    && Inv(a) && SameTick(w, a) && SplitShaped(w, x) && SameBuffers(w.server, x.handlers.server)
    && x.vehicles == a.vehicles && x.mail == a.mail
    && CountedUpdates(w, Awaiting(w), x.updates) && Stages(w, x, a)
  }

  /** The handlers are where `SplitUpdate` has them after these moves. */
  ghost predicate Following(w: World, x: Split, moves: seq<SplitUpdate.Move>)
    requires Opened(w) && CountedUpdates(w, Awaiting(w), x.updates)
  {
    AwaitedFillTick(w, x.updates);
    SplitUpdate.Legal(w.server, x.updates, moves) && x.handlers == SplitUpdate.After(w.server, x.updates, moves)
  }

  lemma PrivateSame(veh: Vehicle, mail: seq<Tick>, a: Action, control: bool, s: Server, s': Server)
    requires Private(a) && PrivateEnabled(veh, mail, a) && SameBuffers(s, s')
    ensures PrivateStep(veh, mail, a, control, s) == PrivateStep(veh, mail, a, control, s')
  {
  }

  lemma SendingStays(veh: Vehicle, mail: seq<Tick>, a: Action, control: bool, s: Server)
    requires Private(a) && PrivateEnabled(veh, mail, a) && veh.phase.Sending?
    ensures PrivateStep(veh, mail, a, control, s).0.phase == veh.phase
  {
  }

  lemma PrivateTick(a: World, p: Action)
    requires Enabled(a, p) && Private(p)
    ensures var a' := Apply(a, p);
            && a' == PrivatelyStepped(a, p) && a'.server == a.server && a'.orch == a.orch && a'.control == a.control
            && a'.replied == a.replied && a'.done == a.done && |a'.vehicles| == |a.vehicles|
  {
  }

  lemma VehicularKeeps(w: World, x: Split, a: World, p: Action)
    requires Opened(w) && Related(w, x, a) && CanAct(w, x, Vehicular(p))
    ensures Enabled(a, p) && Related(w, Acted(w, x, Vehicular(p)), Apply(a, p))
  {
    var x', a' := Acted(w, x, Vehicular(p)), Apply(a, p);
    StepKeepsInv(a, p);
    PrivateTick(a, p);
    PrivateSame(x.vehicles[p.v], x.mail[p.v], p, w.control, a.server, x.handlers.server);
    forall h | 0 <= h < |Awaiting(w)|
      ensures Stage(w, x', a', h)
    {
      assert Stage(w, x, a, h);
      VehicularStage(w, x, a, a', p, h);
    }
  }

  lemma VehicularStage(w: World, x: Split, a: World, a': World, p: Action, h: nat)
    requires CanAct(w, x, Vehicular(p)) && h < |Awaiting(w)| && Stage(w, x, a, h)
    requires a'.replied == a.replied && a'.done == a.done
    ensures Stage(w, Acted(w, x, Vehicular(p)), a', h)
  {
    if Awaiting(w)[h] == p.v && x.vehicles[p.v].phase.Sending? {
      SendingStays(x.vehicles[p.v], x.mail[p.v], p, w.control, x.handlers.server);
    }
  }

  /** What a vehicle sends in an open tick is counted. */
  lemma SentIsCounted(w: World, a: World, v: nat)
    requires Opened(w) && Inv(a) && SameTick(w, a) && v < |a.vehicles| && a.vehicles[v].phase.Sending?
    ensures CountedUpdate(w, v, a.vehicles[v].phase.update) && Enabled(a, Handle(v))
    ensures v !in a.replied && v !in a.done
  {
    HandleFinds(a, v);
    assert VehicleInv(a, v);
  }

  lemma OtherStage(w: World, x: Split, x': Split, a: World, a': World, h: nat)
    requires SplitShaped(w, x) && SplitShaped(w, x') && h < |Awaiting(w)| && Stage(w, x, a, h)
    requires x'.handlers.pc[h] == x.handlers.pc[h] && x'.updates[h] == x.updates[h]
    requires x'.vehicles[Awaiting(w)[h]] == x.vehicles[Awaiting(w)[h]]
    requires Awaiting(w)[h] in a'.replied <==> Awaiting(w)[h] in a.replied
    requires Awaiting(w)[h] in a'.done <==> Awaiting(w)[h] in a.done
    ensures Stage(w, x', a', h)
  {
  }

  lemma CountKeeps(w: World, x: Split, a: World, m: SplitUpdate.Move)
    requires Opened(w) && Related(w, x, a) && CanAct(w, x, Handler(m)) && m.Count?
    ensures Related(w, Acted(w, x, Handler(m)), a)
  {
    var x', v := Acted(w, x, Handler(m)), Awaiting(w)[m.h];
    SentIsCounted(w, a, v);
    forall h | 0 <= h < |Awaiting(w)|
      ensures Stage(w, x', a, h)
    {
      assert Stage(w, x, a, h);
      if h != m.h { OtherStage(w, x, x', a, a, h); }
    }
  }

  lemma LoadKeeps(w: World, x: Split, a: World, m: SplitUpdate.Move)
    requires Opened(w) && Related(w, x, a) && CanAct(w, x, Handler(m)) && (m.LoadReplied? || m.LoadCompleted?)
    ensures Related(w, Acted(w, x, Handler(m)), a)
  {
    var x' := Acted(w, x, Handler(m));
    forall h | 0 <= h < |Awaiting(w)|
      ensures Stage(w, x', a, h)
    {
      assert Stage(w, x, a, h);
      if h != m.h { OtherStage(w, x, x', a, a, h); }
    }
  }

  /** What the whole handler does beside counting. */
  lemma HandleTick(w: World, a: World, v: nat)
    requires Opened(w) && Inv(a) && SameTick(w, a) && v < |a.vehicles| && a.vehicles[v].phase.Sending?
    ensures Enabled(a, Handle(v)) && Inv(Apply(a, Handle(v))) && Replying(w, a, Apply(a, Handle(v)), v)
  {
    SentIsCounted(w, a, v);
    HandleKeepsInv(a, v);
    HandleReplies(w, a, v);
    assert Apply(a, Handle(v)) == Handled(a, v);
  }

  /** `a'` is `a` after vehicle `v` was counted. */
  predicate Replying(w: World, a: World, a': World, v: nat)
    requires v < |a.vehicles| && a.vehicles[v].phase.Sending?
  {
    && SameTick(w, a') && a'.mail == a.mail
    && a'.vehicles == a.vehicles[v := a.vehicles[v].(phase := Returning(a.vehicles[v].phase.update))]
    && a'.replied + a'.done == a.replied + a.done + {v}
  }

  lemma HandleReplies(w: World, a: World, v: nat)
    requires CanHandle(a, v) && SameTick(w, a)
    requires CountedUpdate(w, v, a.vehicles[v].phase.update)
    ensures Replying(w, a, Handled(a, v), v)
  {
    HandleFrame(a, v);
    HandleSame(a, v);
  }

  lemma HandleSame(a: World, v: nat)
    requires CanHandle(a, v)
    ensures Handled(a, v).control == a.control && SameBuffers(a.server, Handled(a, v).server)
    ensures Handled(a, v).server.command == a.server.command && |Handled(a, v).vehicles| == |a.vehicles|
  {
  }

  lemma TestKeeps(w: World, x: Split, a: World, m: SplitUpdate.Move)
    requires Opened(w) && Related(w, x, a) && CanAct(w, x, Handler(m)) && m.Test?
    ensures Enabled(a, Handle(Awaiting(w)[m.h]))
    ensures Related(w, Acted(w, x, Handler(m)), Apply(a, Handle(Awaiting(w)[m.h])))
  {
    HandleTick(w, a, Awaiting(w)[m.h]);
    TestRelated(w, x, a, Apply(a, Handle(Awaiting(w)[m.h])), m);
  }

  lemma TestRelated(w: World, x: Split, a: World, a': World, m: SplitUpdate.Move)
    requires Opened(w) && Related(w, x, a) && CanAct(w, x, Handler(m)) && m.Test?
    requires Inv(a') && Replying(w, a, a', Awaiting(w)[m.h])
    ensures Related(w, Acted(w, x, Handler(m)), a')
  {
    var x' := Acted(w, x, Handler(m));
    AwaitedAre(w, |w.vehicles|);
    forall h | 0 <= h < |Awaiting(w)|
      ensures Stage(w, x', a', h)
    {
      assert Stage(w, x, a, h);
      TestStage(w, x, a, a', m, h);
    }
  }

  lemma TestStage(w: World, x: Split, a: World, a': World, m: SplitUpdate.Move, h: nat)
    requires CanAct(w, x, Handler(m)) && m.Test? && h < |Awaiting(w)| && Stage(w, x, a, h)
    requires Distinct(Awaiting(w)) && x.vehicles == a.vehicles && Replying(w, a, a', Awaiting(w)[m.h])
    ensures Stage(w, Acted(w, x, Handler(m)), a', h)
  {
    var u, v := Awaiting(w)[h], Awaiting(w)[m.h];
    assert u in a'.replied + a'.done <==> u in a.replied + a.done + {v};
    assert u == v <==> h == m.h;
  }

  /** Every step keeps the relation; a test is the whole handler. */
  lemma ActKeeps(w: World, x: Split, a: World, act: Act)
    requires Opened(w) && Related(w, x, a) && CanAct(w, x, act)
    ensures var step := ActionOf(w, act);
            if step == [] then Related(w, Acted(w, x, act), a)
            else |step| == 1 && Enabled(a, step[0]) && Related(w, Acted(w, x, act), Apply(a, step[0]))
  {
    match act {
      case Vehicular(p) => VehicularKeeps(w, x, a, p);
      case Handler(m) =>
        match m {
          case Count(_) => CountKeeps(w, x, a, m);
          case Test(_) => TestKeeps(w, x, a, m);
          case _ => LoadKeeps(w, x, a, m);
        }
    }
  }

  // ---- The handlers' part ----

  /** A handler that has not counted is not affected by what it will be sent. */
  lemma {:induction false} NotYetTold(s: Server, us: seq<VehicleUpdate>, us': seq<VehicleUpdate>,
                                      moves: seq<SplitUpdate.Move>, h: nat)
    requires SplitUpdate.Tickful(s, us) && SplitUpdate.Tickful(s, us') && h < |us| == |us'|
    requires forall g :: 0 <= g < |us| && g != h ==> us'[g] == us[g]
    requires SplitUpdate.Legal(s, us, moves) && SplitUpdate.After(s, us, moves).pc[h] == SplitUpdate.Entered
    ensures SplitUpdate.Legal(s, us', moves) && SplitUpdate.After(s, us', moves) == SplitUpdate.After(s, us, moves)
    decreases |moves|
  {
    if moves != [] {
      var front, m := moves[..|moves| - 1], moves[|moves| - 1];
      NotYetTold(s, us, us', front, h);
    }
  }

  lemma Follows(w: World, x: Split, a: World, m: SplitUpdate.Move, moves: seq<SplitUpdate.Move>)
    requires Opened(w) && Related(w, x, a) && CanAct(w, x, Handler(m)) && Following(w, x, moves)
    requires CountedUpdates(w, Awaiting(w), Told(w, x, m))
    ensures Following(w, Acted(w, x, Handler(m)), moves + [m])
  {
    var us, us' := x.updates, Told(w, x, m);
    AwaitedFillTick(w, us);
    AwaitedFillTick(w, us');
    if m.Count? {
      NotYetTold(w.server, us, us', moves, m.h);
    }
    SplitUpdate.Snoc(w.server, us', moves, m);
  }

  /** Every run of a tick with split handlers: the handlers take legal moves on the updates they are sent, and
      vehicles and mail are as in the run whose handlers are whole. */
  lemma {:induction false} SplitRun(w: World, run: seq<Act>)
    requires Opened(w) && LegalActs(w, run)
    ensures Legal(w, Whole(w, run)) && Related(w, AfterActs(w, run), After(w, Whole(w, run)))
    ensures Following(w, AfterActs(w, run), Moves(run))
    decreases |run|
  {
    if run == [] {
      OpeningRelated(w);
    } else {
      var front, act := run[..|run| - 1], run[|run| - 1];
      SplitRun(w, front);
      RunNext(w, front, act);
    }
  }

  lemma OpeningRelated(w: World)
    requires Opened(w)
    ensures Related(w, Opening(w), w) && Following(w, Opening(w), [])
  {
    AwaitedFillTick(w, Blank(w));
  }

  lemma WholeNext(w: World, front: seq<Action>, step: seq<Action>)
    requires Legal(w, front) && |step| <= 1 && (step != [] ==> Enabled(After(w, front), step[0]))
    ensures Legal(w, front + step)
    ensures After(w, front + step) == if step == [] then After(w, front) else Apply(After(w, front), step[0])
  {
    if step == [] {
      assert front + step == front;
    } else {
      assert step == [step[0]];
      BarrierProgress.Snoc(w, front, step[0]);
    }
  }

  lemma RunNext(w: World, front: seq<Act>, act: Act)
    requires Opened(w) && LegalActs(w, front) && CanAct(w, AfterActs(w, front), act)
    requires Legal(w, Whole(w, front)) && Related(w, AfterActs(w, front), After(w, Whole(w, front)))
    requires Following(w, AfterActs(w, front), Moves(front))
    ensures var whole, x' := Whole(w, front) + ActionOf(w, act), Acted(w, AfterActs(w, front), act);
            && Legal(w, whole) && Related(w, x', After(w, whole))
            && Following(w, x', Moves(front) + MoveOf(act))
  {
    var x, a := AfterActs(w, front), After(w, Whole(w, front));
    ActKeeps(w, x, a, act);
    WholeNext(w, Whole(w, front), ActionOf(w, act));
    if act.Handler? {
      Follows(w, x, a, act.m, Moves(front));
    } else {
      assert Moves(front) + MoveOf(act) == Moves(front);
    }
  }

  // ---- What the tick comes to ----

  predicate Refined(w: World, x: Split, a: World) {
    && x.vehicles == a.vehicles && x.mail == a.mail && |x.handlers.pc| == |Awaiting(w)|
    && (x.handlers.pushers != [] ==>
        forall h :: 0 <= h < |x.handlers.pc| ==> x.handlers.pc[h] != SplitUpdate.Entered)
    && (AllLeft(x) <==> Complete(a.replied, a.done, |w.vehicles|))
  }

  /** Split handlers refine whole ones: vehicles and mail are as in a legal run of the barrier; nobody pushes
      before every awaited vehicle's update was counted; and all handlers have left exactly when that run
      has everyone accounted for. */
  lemma SplitRefinesWhole(w: World, run: seq<Act>)
    requires Opened(w) && LegalActs(w, run)
    ensures Legal(w, Whole(w, run)) && Refined(w, AfterActs(w, run), After(w, Whole(w, run)))
  {
    SplitRun(w, run);
    StartsAccounted(w, run);
    RelatedRefines(w, AfterActs(w, run), After(w, Whole(w, run)), Moves(run));
  }

  lemma RelatedRefines(w: World, x: Split, a: World, moves: seq<SplitUpdate.Move>)
    requires Opened(w) && Related(w, x, a) && Following(w, x, moves) && w.replied <= a.replied && w.done <= a.done
    ensures Refined(w, x, a)
  {
    if x.handlers.pushers != [] {
      AllCountedFirst(w, x, moves);
    }
    AllLeftIff(w, x, a);
  }

  lemma AllCountedFirst(w: World, x: Split, moves: seq<SplitUpdate.Move>)
    requires Opened(w) && CountedUpdates(w, Awaiting(w), x.updates) && Following(w, x, moves)
    requires x.handlers.pushers != []
    ensures forall h :: 0 <= h < |x.handlers.pc| ==> x.handlers.pc[h] != SplitUpdate.Entered
  {
    AwaitedFillTick(w, x.updates);
    SplitUpdate.AfterInv(w.server, x.updates, moves);
    var order := x.handlers.order;
    SplitUpdate.CoreCounts(w.server, x.updates, x.handlers);
    DistinctSize(order);
    SubsetSize(Elements(order), All(|x.updates|));
    forall h | 0 <= h < |x.handlers.pc|
      ensures x.handlers.pc[h] != SplitUpdate.Entered
    {
      assert h in Elements(order);
    }
  }

  /** Who was accounted for when the tick opened still is. */
  lemma {:induction false} StartsAccounted(w: World, run: seq<Act>)
    requires Opened(w) && LegalActs(w, run) && Legal(w, Whole(w, run))
    ensures var a := After(w, Whole(w, run)); w.replied <= a.replied && w.done <= a.done
    decreases |run|
  {
    if run != [] {
      var front, act := run[..|run| - 1], run[|run| - 1];
      SplitRun(w, front);
      StartsAccounted(w, front);
      StepAccounted(w, AfterActs(w, front), Whole(w, front), act);
    }
  }

  lemma StepAccounted(w: World, x: Split, front: seq<Action>, act: Act)
    requires Opened(w) && Legal(w, front) && Related(w, x, After(w, front)) && CanAct(w, x, act)
    requires w.replied <= After(w, front).replied && w.done <= After(w, front).done
    ensures var whole := front + ActionOf(w, act);
            Legal(w, whole) && w.replied <= After(w, whole).replied && w.done <= After(w, whole).done
  {
    var step := ActionOf(w, act);
    ActKeeps(w, x, After(w, front), act);
    WholeNext(w, front, step);
    if step != [] {
      StaysAccounted(After(w, front), step[0]);
    }
  }

  lemma StaysAccounted(a: World, p: Action)
    requires Enabled(a, p) && (Private(p) || p.Handle?)
    ensures a.replied <= Apply(a, p).replied && a.done <= Apply(a, p).done
  {
  }

  predicate AllLeft(x: Split) {
    forall h :: 0 <= h < |x.handlers.pc| ==> x.handlers.pc[h] == SplitUpdate.Left
  }

  lemma AllLeftIff(w: World, x: Split, a: World)
    requires Opened(w) && Related(w, x, a) && w.replied <= a.replied && w.done <= a.done
    ensures AllLeft(x) <==> Complete(a.replied, a.done, |w.vehicles|)
  {
    AwaitedAre(w, |w.vehicles|);
    if Complete(a.replied, a.done, |w.vehicles|) {
      forall h | 0 <= h < |x.handlers.pc|
        ensures x.handlers.pc[h] == SplitUpdate.Left
      {
        assert Stage(w, x, a, h);
        assert Awaiting(w)[h] in All(|w.vehicles|);
      }
    }
    if AllLeft(x) {
      LeftAreAll(w, x, a);
    }
  }

  lemma LeftAreAll(w: World, x: Split, a: World)
    requires Opened(w) && Related(w, x, a) && w.replied <= a.replied && w.done <= a.done && AllLeft(x)
    ensures Complete(a.replied, a.done, |w.vehicles|)
  {
    AwaitedAre(w, |w.vehicles|);
    forall v: nat | v < |w.vehicles|
      ensures v in a.replied + a.done
    {
      if v in Awaiting(w) {
        var h :| 0 <= h < |Awaiting(w)| && Awaiting(w)[h] == v;
        assert Stage(w, x, a, h);
      }
    }
    assert a.replied + a.done == All(|w.vehicles|);
  }

  /** From these updates, moves and pushers the orchestrator gets to see a completion of the tick, and exactly
      one if and only if the handlers that loaded both counters last report the same duration. */
  ghost predicate Announced(w: World, us: seq<VehicleUpdate>, moves: seq<SplitUpdate.Move>, ps: seq<nat>) {
    && (forall i :: 0 <= i < |ps| ==> ps[i] < |us|)
    && var seen := SplitUpdate.Seen(w.orch.push, SplitUpdate.PushesOf(us, w.server.command, ps));
       && seen != [] && seen[0].tickId == Label(w.orch.tickId)
       && (|seen| == 1 <==>
           forall g: nat, h: nat ::
             && g < |us| && SplitUpdate.OkBefore(us, moves, g) && SplitUpdate.FinalBefore(us, moves, g)
             && h < |us| && SplitUpdate.OkBefore(us, moves, h) && SplitUpdate.FinalBefore(us, moves, h)
             ==> us[g].durationNs == us[h].durationNs)
  }

  lemma FollowersAnnounce(w: World, x: Split, moves: seq<SplitUpdate.Move>)
    requires Opened(w) && Awaiting(w) != [] && CountedUpdates(w, Awaiting(w), x.updates) && Following(w, x, moves)
    requires AllLeft(x)
    ensures Announced(w, x.updates, moves, x.handlers.pushers)
  {
    AwaitedFillTick(w, x.updates);
    SplitUpdate.TickCompletesOnceIff(w.server, x.updates, moves, w.orch.push, Label(w.orch.tickId));
  }

  /** So when all handlers of a tick have left, however they and the vehicles interleaved, the updates they were
      sent are counted ones of the tick, and it is announced in that way. */
  lemma TickCompletes(w: World, run: seq<Act>)
    requires Opened(w) && Awaiting(w) != [] && LegalActs(w, run) && AllLeft(AfterActs(w, run))
    ensures var x := AfterActs(w, run);
            CountedUpdates(w, Awaiting(w), x.updates) && Announced(w, x.updates, Moves(run), x.handlers.pushers)
  {
    SplitRun(w, run);
    FollowersAnnounce(w, AfterActs(w, run), Moves(run));
  }
}
