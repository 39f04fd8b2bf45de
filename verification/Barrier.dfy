/** The tick barrier as one transition system: orchestrator (sim_api.py), server
    (ecloud_server.cc), vehicles (vehiclesim.py) and their push servers (ecloud_comms.py).
    Vehicles are named by the index the server gave them; each server handler is one step; pushes
    to vehicles arrive once each, in any order; pushes to the orchestrator arrive within the handler,
    which blocks on them. */
module Barrier {
  import opened Messages
  import opened EcloudServer
  import opened IndexSets
  import opened PushQueue
  import opened VehicleSim

  /** The orchestrator between its calls.  `Draining(true)` fetches until an empty reply. */
  datatype OrchPhase = AwaitRegistration | Draining(untilEmpty: bool) | Ready | AwaitTick | Ended

  datatype Orch = Orch(phase: OrchPhase, tickId: nat, push: Push)

  /** `mail[v]` are the pushes on their way to vehicle `v`.  The last three fields only record the past:
      who replied since the last tick (before the first: who registered its actor), who reported done
      and the ids pushed to the orchestrator. */
  datatype World = World(
    control: bool,
    server: Server,
    vehicles: seq<Vehicle>,
    mail: seq<seq<Tick>>,
    orch: Orch,
    replied: set<nat>,
    done: set<nat>,
    labels: seq<int>)

  datatype Action =
    | Enroll(v: nat)
    | SendCarla(v: nat)
    | EndJoin(v: nat)
    | Deliver(v: nat, k: nat)
    | TakePush(v: nat)
    | Fetch(v: nat)
    | Step(v: nat, arrived: bool, durationNs: int)
    | Handle(v: nat)
    | EndSend(v: nat)
    | Proceed
    | Drain
    | PushBuffers(buffers: seq<WaypointBuffer>)
    | Broadcasting(command: Command)
    | Finish

  function Start(numCars: nat, isEdge: bool, control: bool): World {
    World(control, Started(numCars, isEdge), seq(numCars, _ => FRESH), seq(numCars, _ => []),
          Orch(AwaitRegistration, 0, INITIAL), {}, {}, [])
  }

  predicate Shaped(w: World) {
    w.server.Valid() && |w.vehicles| == |w.mail| == w.server.numCars
  }

  /** Steps that touch one vehicle and its mail only. */
  predicate Private(a: Action) {
    a.EndJoin? || a.Deliver? || a.TakePush? || a.Fetch? || a.Step? || a.EndSend?
  }

  predicate PrivateEnabled(veh: Vehicle, mail: seq<Tick>, a: Action)
    requires Private(a)
  {
    match a
    case EndJoin(_) => veh.phase == Joining
    case Deliver(_, k) => k < |mail|
    case TakePush(_) => veh.phase.Waiting? && veh.push.que != []
    case Fetch(_) => veh.phase == Fetching
    case Step(_, _, _) => veh.phase.Running?
    case EndSend(_) => veh.phase.Returning?
  }

  /** A push reaches the vehicle's push server, unless the process is gone. */
  function Delivered(veh: Vehicle, t: Tick): Vehicle {
    if veh.phase in {Exited, Crashed} then veh else veh.(push := PushTick(veh.push, t).0)
  }

  function PrivateStep(veh: Vehicle, mail: seq<Tick>, a: Action, control: bool, s: Server): (Vehicle, seq<Tick>)
    requires Private(a) && PrivateEnabled(veh, mail, a)
  {
    match a
    case EndJoin(_) => (Joined(veh), mail)
    case Deliver(_, k) => (Delivered(veh, mail[k]), mail[..k] + mail[k + 1..])
    case TakePush(_) => (Take(veh), mail)
    case Fetch(v) => (Fetched(veh, GetWaypoints(s.waypoints, v), s.isEdge), mail)
    case Step(v, arrived, dur) => (Stepped(veh, v, control, arrived, dur), mail)
    case EndSend(_) => (Returned(veh), mail)
  }

  /** A push to the orchestrator, if the handler made one. */
  function Notify(w: World, push: Option<Tick>): World {
    match push
    case None => w
    case Some(t) => w.(orch := w.orch.(push := PushTick(w.orch.push, t).0), labels := w.labels + [t.tickId])
  }

  /** Client_RegisterVehicle, REGISTERING. */
  function Enrolled(w: World, v: nat): World
    requires v < |w.vehicles|
  {
    var s := Register(w.server).0;
    Notify(w.(server := s, vehicles := w.vehicles[v := w.vehicles[v].(phase := Registered)]), RegistrationPush(s))
  }

  /** Client_RegisterVehicle, CARLA_UPDATE; first without its push. */
  function CarlaStored(w: World, v: nat): World
    requires v < |w.vehicles|
  {
    w.(server := CarlaUpdate(w.server, v), vehicles := w.vehicles[v := w.vehicles[v].(phase := Joining)],
       replied := w.replied + {v})
  }

  function CarlaSent(w: World, v: nat): World
    requires v < |w.vehicles|
  {
    Notify(CarlaStored(w, v), RegistrationPush(CarlaStored(w, v).server))
  }

  /** Client_SendUpdate; first without its push. */
  predicate CanHandle(w: World, v: nat) {
    && w.server.Valid() && v < |w.vehicles| && w.vehicles[v].phase.Sending?
    && w.vehicles[v].phase.update.vehicleIndex < MAX_CARS
  }

  function UpdateStored(w: World, v: nat): World
    requires CanHandle(w, v)
  {
    var u := w.vehicles[v].phase.update;
    w.(server := SendUpdate(w.server, u).0, vehicles := w.vehicles[v := w.vehicles[v].(phase := Returning(u))],
       replied := if u.vehicleState == TICK_OK then w.replied + {v} else w.replied,
       done := if IsDone(u.vehicleState) then w.done + {v} else w.done)
  }

  function Handled(w: World, v: nat): World
    requires CanHandle(w, v)
  {
    Notify(UpdateStored(w, v), SendUpdate(w.server, w.vehicles[v].phase.update).1)
  }

  /** The orchestrator reads its queue.  After tick 1 it fetches no updates. */
  function Proceeded(w: World): World
    requires w.orch.push.que != []
  {
    w.(orch := w.orch.(push := w.orch.push.(que := w.orch.push.que[1..]),
                       phase := if w.orch.phase == AwaitRegistration then Draining(false)
                                else if w.orch.tickId == 1 then Ready
                                else Draining(w.server.command == REQUEST_DEBUG_INFO)))
  }

  function DrainedOnce(w: World): World
    requires w.orch.phase.Draining?
  {
    var (s, reply) := GetUpdates(w.server);
    w.(server := s, orch := w.orch.(phase := if w.orch.phase.untilEmpty && reply != [] then w.orch.phase else Ready))
  }

  function Posted(mail: seq<seq<Tick>>, clients: nat, t: Tick): seq<seq<Tick>> {
    seq(|mail|, v requires 0 <= v < |mail| => if v < clients then mail[v] + [t] else mail[v])
  }

  function Ticked(w: World, c: Command): World {
    var t := Tick(w.orch.tickId + 1, c, INVALID_TIME);
    w.(orch := w.orch.(phase := AwaitTick, tickId := w.orch.tickId + 1), server := DoTick(w.server, t),
       mail := Posted(w.mail, w.server.clients, t), replied := {})
  }

  function Finished(w: World): World {
    w.(orch := w.orch.(phase := Ended), server := EndScenario(w.server),
       mail := Posted(w.mail, w.server.clients, Tick(TICK_ID_INVALID, END, INVALID_TIME)))
  }

  function PrivatelyStepped(w: World, a: Action): World
    requires Private(a) && a.v < |w.vehicles| && a.v < |w.mail| && PrivateEnabled(w.vehicles[a.v], w.mail[a.v], a)
  {
    var (veh, mail) := PrivateStep(w.vehicles[a.v], w.mail[a.v], a, w.control, w.server);
    w.(vehicles := w.vehicles[a.v := veh], mail := w.mail[a.v := mail])
  }

  predicate Enabled(w: World, a: Action) {
    Shaped(w) &&
    match a
    case Enroll(v) => v < |w.vehicles| && v == w.server.numRegistered && w.vehicles[v].phase == Unregistered
    case SendCarla(v) => v < |w.vehicles| && w.vehicles[v].phase == Registered
    case Handle(v) => CanHandle(w, v)
    case Proceed => w.orch.phase in {AwaitRegistration, AwaitTick} && w.orch.push.que != []
    case Drain => w.orch.phase.Draining?
    case PushBuffers(_) => w.orch.phase == Ready
    case Broadcasting(c) => w.orch.phase == Ready && c != END
    case Finish => w.orch.phase == Ready
    case _ => a.v < |w.vehicles| && PrivateEnabled(w.vehicles[a.v], w.mail[a.v], a)
  }

  function Apply(w: World, a: Action): World
    requires Enabled(w, a)
  {
    match a
    case Enroll(v) => Enrolled(w, v)
    case SendCarla(v) => CarlaSent(w, v)
    case Handle(v) => Handled(w, v)
    case Proceed => Proceeded(w)
    case Drain => DrainedOnce(w)
    case PushBuffers(buffers) => w.(server := PushWaypoints(w.server, buffers))
    case Broadcasting(c) => Ticked(w, c)
    case Finish => Finished(w)
    case _ => PrivatelyStepped(w, a)
  }

  // ---- The invariant ----

  /** The id a completion of tick `t` carries; 0 stands for the registration phase. */
  function Label(t: nat): int {
    if t == 0 then TICK_ID_INVALID else if t == 1 then 0 else t
  }

  function Labels(n: nat): seq<int> {
    seq(n, i requires 0 <= i < n => Label(i))
  }

  /** Exactly one push is outstanding, namely `t`, and it will not be taken for a resend. */
  predicate Outstanding(veh: Vehicle, mail: seq<Tick>, t: Tick) {
    || (mail == [t] && veh.push.que == [] && veh.push.lastTickId != t.tickId)
    || (mail == [] && veh.push.que == [t])
  }

  predicate Quiet(veh: Vehicle, mail: seq<Tick>) {
    mail == [] && veh.push.que == []
  }

  /** A live vehicle's part in tick `t` under command `c`: it has the tick outstanding, or is working
      on it, or has replied (or, on a first PULL_WAYPOINTS_AND_TICK, sent its uncounted update). */
  predicate LiveInv(veh: Vehicle, mail: seq<Tick>, index: nat, t: nat, c: Command, replied: bool) {
    && !veh.reportedDone && 0 <= veh.push.lastTickId <= t
    && match veh.phase
       case Unregistered => t == 0 && !replied && Quiet(veh, mail) && veh.tickId == 0
       case Registered => t == 0 && !replied && Quiet(veh, mail) && veh.tickId == 0
       case Joining => veh.tickId == 0 && Entering(veh, mail, t, c, replied)
       case Waiting(first) => if first then veh.tickId == 0 && Entering(veh, mail, t, c, replied)
                              else Between(veh, mail, t, c, replied)
       case Returning(u) => !IsDone(u.vehicleState) && Between(veh, mail, t, c, replied)
       case Fetching => t >= 2 && c == PULL_WAYPOINTS_AND_TICK && Working(veh, mail, t, replied)
       case Running(d) => Working(veh, mail, t, replied)
                          && d == if t >= 2 && c == PULL_WAYPOINTS_AND_TICK then TICK else c
       case Sending(u) => Working(veh, mail, t, replied) && u.tickId == Label(t) && u.vehicleIndex == index
                          && if t == 1 && c == PULL_WAYPOINTS_AND_TICK then u.vehicleState == REGISTERING
                             else u.vehicleState == TICK_OK || IsDone(u.vehicleState)
       case Exited => false
       case Crashed => !replied && t >= 1
  }

  /** Between its registration call and its first read. */
  predicate Entering(veh: Vehicle, mail: seq<Tick>, t: nat, c: Command, replied: bool) {
    if t == 0 then replied && Quiet(veh, mail)
    else t == 1 && !replied && Outstanding(veh, mail, Tick(1, c, INVALID_TIME))
  }

  predicate Working(veh: Vehicle, mail: seq<Tick>, t: nat, replied: bool) {
    t >= 1 && !replied && Quiet(veh, mail) && veh.tickId == Label(t)
  }

  /** Between sending an update and reading the next push. */
  predicate Between(veh: Vehicle, mail: seq<Tick>, t: nat, c: Command, replied: bool) {
    && t >= 1
    && if replied then Quiet(veh, mail) && veh.tickId == Label(t)
       else || (t >= 2 && veh.tickId == Label(t - 1) && Outstanding(veh, mail, Tick(t, c, INVALID_TIME)))
            || (t == 1 && c == PULL_WAYPOINTS_AND_TICK && Quiet(veh, mail) && veh.tickId == 0)
  }

  /** A live vehicle once END was pushed. */
  predicate EndedInv(veh: Vehicle, mail: seq<Tick>) {
    && !veh.reportedDone && (veh.phase != Exited ==> veh.tickId >= 0)
    && match veh.phase
       case Joining => Outstanding(veh, mail, Tick(TICK_ID_INVALID, END, INVALID_TIME))
       case Waiting(_) => Outstanding(veh, mail, Tick(TICK_ID_INVALID, END, INVALID_TIME))
       case Returning(u) => !IsDone(u.vehicleState) && Outstanding(veh, mail, Tick(TICK_ID_INVALID, END, INVALID_TIME))
       case Exited => true
       case Crashed => true
       case _ => false
  }

  /** A vehicle that reported done sends nothing more; nothing is said about its pushes. */
  predicate DoneInv(veh: Vehicle) {
    match veh.phase
    case Returning(u) => !veh.reportedDone && IsDone(u.vehicleState)
    case Waiting(first) => veh.reportedDone && !first
    case Fetching => veh.reportedDone
    case Running(_) => veh.reportedDone
    case Exited => veh.reportedDone
    case Crashed => veh.reportedDone
    case _ => false
  }

  predicate VehicleOk(veh: Vehicle, mail: seq<Tick>, index: nat, ended: bool, t: nat, c: Command, replied: bool,
                      done: bool) {
    if done then DoneInv(veh) && !replied
    else if ended then EndedInv(veh, mail)
    else LiveInv(veh, mail, index, t, c, replied)
  }

  predicate VehicleInv(w: World, v: nat)
    requires v < |w.vehicles| && v < |w.mail|
  {
    && (w.vehicles[v].phase == Unregistered <==> v >= w.server.numRegistered)
    && VehicleOk(w.vehicles[v], w.mail[v], v, w.orch.phase == Ended, w.orch.tickId, w.server.command,
                 v in w.replied, v in w.done)
  }

  /** Everyone has replied or reported done. */
  predicate Complete(replied: set<nat>, done: set<nat>, n: nat) {
    replied + done == All(n)
  }

  /** The two counters are the sizes of two disjoint sets of vehicles. */
  predicate ServerInv(s: Server, orch: Orch, replied: set<nat>, done: set<nat>, n: nat) {
    && s.tickId == orch.tickId
    && s.clients == s.numRegistered <= n
    && replied <= All(n) && done <= All(n) && replied !! done
    && s.numCompleted == |done|
    && (orch.tickId == 0 ==> done == {} && (orch.phase != Ended ==> s.command == TICK))
    && (orch.phase != Ended ==> s.command != END)
    && (orch.phase == AwaitRegistration ==> orch.tickId == 0 && |s.pending| == |replied|)
    && (orch.phase in {AwaitRegistration, AwaitTick} ==> s.numReplied == |replied|)
    && (orch.phase == AwaitTick ==> orch.tickId >= 1)
  }

  /** What the orchestrator has been told: labels in order, one per completed phase. */
  predicate OrchInv(orch: Orch, labels: seq<int>, replied: set<nat>, done: set<nat>, n: nat) {
    && (labels == [] ==> orch.push.lastTickId == 0)
    && (labels != [] ==> orch.push.lastTickId == labels[|labels| - 1])
    && if orch.phase in {AwaitRegistration, AwaitTick} then
         if orch.push.que == [] then
           labels == Labels(orch.tickId) && (Complete(replied, done, n) ==> replied == {})
         else
           && labels == Labels(orch.tickId + 1) && Complete(replied, done, n)
           && |orch.push.que| == 1 && orch.push.que[0].tickId == Label(orch.tickId)
       else
         orch.push.que == [] && labels == Labels(orch.tickId + 1) && Complete(replied, done, n)
  }

  predicate Inv(w: World) {
    && Shaped(w)
    && ServerInv(w.server, w.orch, w.replied, w.done, |w.vehicles|)
    && OrchInv(w.orch, w.labels, w.replied, w.done, |w.vehicles|)
    && forall v :: 0 <= v < |w.vehicles| ==> VehicleInv(w, v)
  }

  // ---- Counters and sets ----

  /** The counter test is the set test. */
  lemma CountersSayComplete(replied: set<nat>, done: set<nat>, n: nat)
    requires replied !! done && replied <= All(n) && done <= All(n)
    ensures |replied| + |done| <= n
    ensures |replied| + |done| == n <==> replied + done == All(n)
  {
    SubsetSize(replied + done, All(n));
    assert |replied + done| == |replied| + |done|;
  }

  // ---- Every step keeps the invariant ----

  lemma StartInv(numCars: nat, isEdge: bool, control: bool)
    requires numCars <= MAX_CARS
    ensures Inv(Start(numCars, isEdge, control))
  {
    assert Labels(0) == [];
  }

  lemma DeliverOk(veh: Vehicle, mail: seq<Tick>, k: nat, index: nat, ended: bool, t: nat, c: Command, replied: bool,
                  done: bool)
    requires VehicleOk(veh, mail, index, ended, t, c, replied, done) && k < |mail|
    ensures VehicleOk(Delivered(veh, mail[k]), mail[..k] + mail[k + 1..], index, ended, t, c, replied, done)
  {
    if !done && |mail| == 1 {
      assert mail[..k] + mail[k + 1..] == [];
    }
  }

  lemma JoinOk(veh: Vehicle, mail: seq<Tick>, index: nat, ended: bool, t: nat, c: Command, replied: bool, done: bool)
    requires VehicleOk(veh, mail, index, ended, t, c, replied, done) && veh.phase == Joining
    ensures VehicleOk(Joined(veh), mail, index, ended, t, c, replied, done)
  {
  }

  lemma TakeOk(veh: Vehicle, mail: seq<Tick>, index: nat, ended: bool, t: nat, c: Command, replied: bool, done: bool)
    requires VehicleOk(veh, mail, index, ended, t, c, replied, done) && veh.phase.Waiting? && veh.push.que != []
    requires !ended ==> c != END
    ensures VehicleOk(Take(veh), mail, index, ended, t, c, replied, done)
  {
  }

  lemma StepOk(veh: Vehicle, mail: seq<Tick>, index: nat, ended: bool, t: nat, c: Command, replied: bool, done: bool,
               control: bool, arrived: bool, durationNs: int)
    requires VehicleOk(veh, mail, index, ended, t, c, replied, done) && veh.phase.Running?
    requires !ended ==> c != END
    ensures VehicleOk(Stepped(veh, index, control, arrived, durationNs), mail, index, ended, t, c, replied, done)
  {
  }

  lemma ReturnOk(veh: Vehicle, mail: seq<Tick>, index: nat, ended: bool, t: nat, c: Command, replied: bool, done: bool)
    requires VehicleOk(veh, mail, index, ended, t, c, replied, done) && veh.phase.Returning?
    ensures VehicleOk(Returned(veh), mail, index, ended, t, c, replied, done)
  {
  }

  /** A step of one vehicle leaves the rest alone. */
  lemma OneVehicleKeepsInv(w: World, v: nat, veh: Vehicle, mail: seq<Tick>)
    requires Inv(w) && v < |w.vehicles|
    requires VehicleOk(veh, mail, v, w.orch.phase == Ended, w.orch.tickId, w.server.command, v in w.replied,
                       v in w.done)
    requires veh.phase == Unregistered <==> w.vehicles[v].phase == Unregistered
    ensures Inv(w.(vehicles := w.vehicles[v := veh], mail := w.mail[v := mail]))
  {
    var w' := w.(vehicles := w.vehicles[v := veh], mail := w.mail[v := mail]);
    forall u | 0 <= u < |w.vehicles|
      ensures VehicleInv(w', u)
    {
      assert VehicleInv(w, u);
    }
  }

  lemma PrivateStepOk(veh: Vehicle, mail: seq<Tick>, a: Action, ended: bool, t: nat, c: Command, replied: bool,
                      done: bool,
                      control: bool, s: Server)
    requires Private(a) && PrivateEnabled(veh, mail, a)
    requires VehicleOk(veh, mail, a.v, ended, t, c, replied, done) && (!ended ==> c != END)
    ensures var (veh', mail') := PrivateStep(veh, mail, a, control, s);
            && VehicleOk(veh', mail', a.v, ended, t, c, replied, done)
            && (veh'.phase == Unregistered <==> veh.phase == Unregistered)
  {
    match a {
      case Deliver(v, k) => DeliverOk(veh, mail, k, v, ended, t, c, replied, done);
      case EndJoin(v) => JoinOk(veh, mail, v, ended, t, c, replied, done);
      case TakePush(v) => TakeOk(veh, mail, v, ended, t, c, replied, done);
      case Fetch(v) =>
      case Step(v, arrived, dur) => StepOk(veh, mail, v, ended, t, c, replied, done, control, arrived, dur);
      case EndSend(v) => ReturnOk(veh, mail, v, ended, t, c, replied, done);
    }
  }

  lemma PrivateStepKeepsInv(w: World, a: Action)
    requires Inv(w) && Private(a) && a.v < |w.vehicles| && PrivateEnabled(w.vehicles[a.v], w.mail[a.v], a)
    ensures Inv(PrivatelyStepped(w, a))
  {
    var v := a.v;
    assert VehicleInv(w, v);
    PrivateStepOk(w.vehicles[v], w.mail[v], a, w.orch.phase == Ended, w.orch.tickId, w.server.command,
                  v in w.replied, v in w.done, w.control, w.server);
    var (veh, mail) := PrivateStep(w.vehicles[v], w.mail[v], a, w.control, w.server);
    OneVehicleKeepsInv(w, v, veh, mail);
  }

  /** A push for the phase in progress is new to the orchestrator and finds its queue empty. */
  lemma NotifyOk(w: World, t: Tick, n: nat)
    requires w.orch.phase in {AwaitRegistration, AwaitTick} && w.orch.push.que == []
    requires w.labels == Labels(w.orch.tickId) && (w.labels == [] ==> w.orch.push.lastTickId == 0)
    requires w.labels != [] ==> w.orch.push.lastTickId == w.labels[|w.labels| - 1]
    requires t.tickId == Label(w.orch.tickId) && Complete(w.replied, w.done, n)
    ensures !IsDupe(w.orch.push, t) && PushTick(w.orch.push, t).1
    ensures var w' := Notify(w, Some(t)); OrchInv(w'.orch, w'.labels, w'.replied, w'.done, n)
  {
    assert w.labels + [t.tickId] == Labels(w.orch.tickId + 1);
  }

  /** What a handler does for vehicle `v` leaves the others' part of the invariant alone. */
  lemma OthersUnchanged(w: World, w': World, v: nat)
    requires |w.vehicles| == |w.mail| == |w'.vehicles| == |w'.mail| && v < |w.vehicles|
    requires forall u :: 0 <= u < |w.vehicles| ==> VehicleInv(w, u)
    requires w'.vehicles == w.vehicles[v := w'.vehicles[v]] && w'.mail == w.mail
    requires w'.orch.phase == w.orch.phase && w'.orch.tickId == w.orch.tickId && w'.server.command == w.server.command
    requires w'.server.numRegistered == w.server.numRegistered
    requires w'.replied - {v} == w.replied - {v} && w'.done - {v} == w.done - {v}
    requires VehicleInv(w', v)
    ensures forall u :: 0 <= u < |w.vehicles| ==> VehicleInv(w', u)
  {
    forall u | 0 <= u < |w.vehicles|
      ensures VehicleInv(w', u)
    {
      if u != v {
        assert VehicleInv(w, u);
        assert u in w'.replied <==> u in w'.replied - {v};
        assert u in w.replied <==> u in w.replied - {v};
        assert u in w'.done <==> u in w'.done - {v};
        assert u in w.done <==> u in w.done - {v};
      }
    }
  }

  lemma EnrollPushesNothing(w: World, v: nat)
    requires Inv(w) && v < |w.vehicles| && v == w.server.numRegistered
    ensures RegistrationPush(Register(w.server).0) == None
  {
    assert VehicleInv(w, v) && v in All(|w.vehicles|);
    CountersSayComplete(w.replied, w.done, |w.vehicles|);
  }

  lemma EnrollKeepsInv(w: World, v: nat)
    requires Inv(w) && v < |w.vehicles| && v == w.server.numRegistered
    ensures Inv(Enrolled(w, v))
  {
    EnrollPushesNothing(w, v);
    var w' := Enrolled(w, v);
    assert VehicleInv(w, v);
    forall u | 0 <= u < |w.vehicles|
      ensures VehicleInv(w', u)
    {
      assert VehicleInv(w, u);
    }
  }

  lemma CarlaFinds(w: World, v: nat)
    requires Inv(w) && v < |w.vehicles| && w.vehicles[v].phase == Registered
    ensures v !in w.replied && v !in w.done && w.orch.phase == AwaitRegistration && w.orch.push.que == []
  {
    assert VehicleInv(w, v) && v in All(|w.vehicles|);
  }

  lemma CarlaTest(w: World, v: nat)
    requires Inv(w) && v < |w.vehicles| && w.vehicles[v].phase == Registered
    ensures var w' := CarlaStored(w, v);
            && ServerInv(w'.server, w'.orch, w'.replied, w'.done, |w.vehicles|)
            && |w'.server.pending| == w'.server.numReplied
            && (RegistrationPush(w'.server).Some? <==> Complete(w'.replied, w'.done, |w.vehicles|))
  {
    CarlaFinds(w, v);
    CountersSayComplete(w.replied + {v}, w.done, |w.vehicles|);
  }

  lemma SendCarlaKeepsInv(w: World, v: nat)
    requires Inv(w) && v < |w.vehicles| && w.vehicles[v].phase == Registered
    ensures Inv(CarlaSent(w, v))
  {
    var n := |w.vehicles|;
    var mid := CarlaStored(w, v);
    CarlaFinds(w, v);
    CarlaTest(w, v);
    if RegistrationPush(mid.server).Some? {
      NotifyOk(mid, RegistrationPush(mid.server).value, n);
    }
    var w' := CarlaSent(w, v);
    assert VehicleInv(w, v);
    OthersUnchanged(w, w', v);
  }

  /** What Client_SendUpdate finds: an open tick, and an update of that tick from a vehicle not yet
      counted in it. */
  lemma HandleFinds(w: World, v: nat)
    requires Inv(w) && v < |w.vehicles| && w.vehicles[v].phase.Sending?
    ensures v !in w.replied && v !in w.done && w.orch.phase == AwaitTick && w.orch.push.que == []
    ensures w.vehicles[v].phase.update.vehicleIndex == v && w.vehicles[v].phase.update.tickId == Label(w.orch.tickId)
  {
    assert VehicleInv(w, v) && v in All(|w.vehicles|);
  }

  lemma SentOk(veh: Vehicle, mail: seq<Tick>, index: nat, t: nat, c: Command)
    requires veh.phase.Sending? && LiveInv(veh, mail, index, t, c, false)
    ensures var u := veh.phase.update;
            VehicleOk(veh.(phase := Returning(u)), mail, index, false, t, c, u.vehicleState == TICK_OK,
                      IsDone(u.vehicleState))
  {
  }

  /** The test made in Client_SendUpdate holds exactly when the update was the last one awaited. */
  lemma HandleTest(w: World, v: nat)
    requires Inv(w) && CanHandle(w, v)
    ensures var w' := UpdateStored(w, v);
            && ServerInv(w'.server, w'.orch, w'.replied, w'.done, |w.vehicles|)
            && (SendUpdate(w.server, w.vehicles[v].phase.update).1.Some? <==>
                Complete(w'.replied, w'.done, |w.vehicles|))
  {
    HandleFinds(w, v);
    var w' := UpdateStored(w, v);
    CountersSayComplete(w'.replied, w'.done, |w.vehicles|);
  }

  lemma HandleNotifies(w: World, v: nat)
    requires Inv(w) && CanHandle(w, v)
    ensures var w' := Handled(w, v);
            && ServerInv(w'.server, w'.orch, w'.replied, w'.done, |w.vehicles|)
            && OrchInv(w'.orch, w'.labels, w'.replied, w'.done, |w.vehicles|)
  {
    HandleFinds(w, v);
    HandleTest(w, v);
    var mid := UpdateStored(w, v);
    var push := SendUpdate(w.server, w.vehicles[v].phase.update).1;
    if push.Some? {
      NotifyOk(mid, push.value, |w.vehicles|);
    }
  }

  /** What Client_SendUpdate does not touch. */
  lemma HandleFrame(w: World, v: nat)
    requires CanHandle(w, v)
    ensures var w' := Handled(w, v);
            && w'.vehicles == w.vehicles[v := w.vehicles[v].(phase := Returning(w.vehicles[v].phase.update))]
            && w'.mail == w.mail && w'.orch.phase == w.orch.phase && w'.orch.tickId == w.orch.tickId
            && w'.server.command == w.server.command && w'.server.numRegistered == w.server.numRegistered
            && w'.server.numCars == w.server.numCars && w'.server.Valid()
            && w'.replied == UpdateStored(w, v).replied && w'.done == UpdateStored(w, v).done
            && w'.replied - {v} == w.replied - {v} && w'.done - {v} == w.done - {v}
  {
  }

  lemma HandleKeepsVehicles(w: World, v: nat)
    requires Inv(w) && CanHandle(w, v)
    ensures forall u :: 0 <= u < |w.vehicles| ==> VehicleInv(Handled(w, v), u)
  {
    var w' := Handled(w, v);
    HandleFrame(w, v);
    HandleFinds(w, v);
    assert VehicleInv(w, v);
    SentOk(w.vehicles[v], w.mail[v], v, w.orch.tickId, w.server.command);
    OthersUnchanged(w, w', v);
  }

  lemma HandleKeepsInv(w: World, v: nat)
    requires Inv(w) && CanHandle(w, v)
    ensures Inv(Handled(w, v))
  {
    HandleFrame(w, v);
    HandleNotifies(w, v);
    HandleKeepsVehicles(w, v);
  }

  lemma OrchStepKeepsInv(w: World, a: Action)
    requires Inv(w) && Enabled(w, a) && (a.Proceed? || a.Drain? || a.PushBuffers?)
    ensures Inv(Apply(w, a))
  {
    var w' := Apply(w, a);
    forall v | 0 <= v < |w.vehicles|
      ensures VehicleInv(w', v)
    {
      assert VehicleInv(w, v);
    }
  }

  /** A vehicle that is through with tick `t` starts tick `t + 1` with one push outstanding. */
  lemma TickedOk(veh: Vehicle, mail: seq<Tick>, index: nat, t: nat, c: Command, replied: bool, done: bool, c': Command)
    requires VehicleOk(veh, mail, index, false, t, c, replied, done) && (replied || done)
    ensures VehicleOk(veh, mail + [Tick(t + 1, c', INVALID_TIME)], index, false, t + 1, c', false, done)
  {
  }

  lemma EndedOk(veh: Vehicle, mail: seq<Tick>, index: nat, t: nat, c: Command, replied: bool, done: bool, c': Command)
    requires VehicleOk(veh, mail, index, false, t, c, replied, done) && (replied || done)
    ensures VehicleOk(veh, mail + [Tick(TICK_ID_INVALID, END, INVALID_TIME)], index, true, t, c', replied, done)
  {
  }

  lemma AllEnrolled(w: World, v: nat)
    requires Inv(w) && w.orch.phase == Ready && v < |w.vehicles|
    ensures v < w.server.clients && (v in w.replied || v in w.done)
  {
    assert VehicleInv(w, v) && v in All(|w.vehicles|);
  }

  lemma BroadcastKeepsInv(w: World, c: Command)
    requires Inv(w) && w.orch.phase == Ready && c != END
    ensures Inv(Ticked(w, c))
  {
    var w' := Ticked(w, c);
    var n := |w.vehicles|;
    forall v | 0 <= v < n
      ensures VehicleInv(w', v)
    {
      AllEnrolled(w, v);
      assert VehicleInv(w, v);
      TickedOk(w.vehicles[v], w.mail[v], v, w.orch.tickId, w.server.command, v in w.replied, v in w.done, c);
    }
  }

  lemma FinishKeepsInv(w: World)
    requires Inv(w) && w.orch.phase == Ready
    ensures Inv(Finished(w))
  {
    var w' := Finished(w);
    forall v | 0 <= v < |w.vehicles|
      ensures VehicleInv(w', v)
    {
      AllEnrolled(w, v);
      assert VehicleInv(w, v);
      EndedOk(w.vehicles[v], w.mail[v], v, w.orch.tickId, w.server.command, v in w.replied, v in w.done, END);
    }
  }

  lemma StepKeepsInv(w: World, a: Action)
    requires Inv(w) && Enabled(w, a)
    ensures Inv(Apply(w, a))
  {
    match a {
      case Enroll(v) => EnrollKeepsInv(w, v);
      case SendCarla(v) => SendCarlaKeepsInv(w, v);
      case Handle(v) => HandleKeepsInv(w, v);
      case Proceed => OrchStepKeepsInv(w, a);
      case Drain => OrchStepKeepsInv(w, a);
      case PushBuffers(_) => OrchStepKeepsInv(w, a);
      case Broadcasting(c) => BroadcastKeepsInv(w, c);
      case Finish => FinishKeepsInv(w);
      case _ => PrivateStepKeepsInv(w, a);
    }
  }
}
