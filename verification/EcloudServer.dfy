/** The eCloud server (opencda/ecloud_server/ecloud_server.cc): its handlers as functions on a
    value, and the class that updates the same fields in place.  Each handler runs atomically. */
module EcloudServer {
  import opened Messages

  const VEHICLE_UPDATE_BATCH_SIZE := 32

  datatype Server = Server(
    numCars: int,
    isEdge: bool,
    numCompleted: int,
    numReplied: int,
    numRegistered: nat,
    tickId: int,
    command: Command,
    repliedCars: seq<bool>,
    pending: seq<Report>,
    waypoints: seq<WaypointBuffer>,
    clients: nat)
  {
    predicate Valid() {
      numCars <= MAX_CARS && |repliedCars| == MAX_CARS
    }
  }

  /** The state after the constructor and Server_StartScenario. */
  function Started(numCars: nat, isEdge: bool): Server {
    Server(numCars, isEdge, 0, 0, 0, 0, TICK, seq(MAX_CARS, _ => false), [], [], 0)
  }

  /** Value of a size stored in an `int16_t`. */
  function Int16(n: nat): int {
    if n % 0x1_0000 < 0x8000 then n % 0x1_0000 else n % 0x1_0000 - 0x1_0000
  }

  /** How many reports one drain call removes from a queue of `n`. */
  function BatchOf(n: nat): (k: nat)
    ensures k <= n && k <= VEHICLE_UPDATE_BATCH_SIZE + 1
  {
    if Int16(n) <= 0 then 0
    else if Int16(n) <= VEHICLE_UPDATE_BATCH_SIZE + 1 then Int16(n)
    else VEHICLE_UPDATE_BATCH_SIZE + 1
  }

  function Reverse<T>(s: seq<T>): (r: seq<T>)
    ensures |r| == |s|
  {
    if s == [] then [] else [s[|s| - 1]] + Reverse(s[..|s| - 1])
  }

  /** Server_GetVehicleUpdates. */
  function GetUpdates(s: Server): (Server, seq<Report>) {
    var k := BatchOf(|s.pending|);
    var rest := s.pending[..|s.pending| - k];
    (s.(pending := rest, numReplied := if rest == [] then 0 else s.numReplied),
     Reverse(s.pending[|s.pending| - k..]))
  }

  /** Is the update queued for the orchestrator? */
  predicate Queued(s: Server, u: VehicleUpdate) {
    s.isEdge || u.vehicleIndex == SPECTATOR_INDEX || IsDone(u.vehicleState)
  }

  /** The state changes of Client_SendUpdate. */
  function Counted(s: Server, u: VehicleUpdate): Server
    requires s.Valid() && u.vehicleIndex < MAX_CARS
  {
    s.(pending := if Queued(s, u) then s.pending + [FromUpdate(u)] else s.pending,
       repliedCars := s.repliedCars[u.vehicleIndex := true],
       numCompleted := if IsDone(u.vehicleState) then s.numCompleted + 1 else s.numCompleted,
       numReplied := if u.vehicleState == TICK_OK then s.numReplied + 1 else s.numReplied)
  }

  /** Client_SendUpdate: the new state, and the completion push when there is one. */
  function SendUpdate(s: Server, u: VehicleUpdate): (Server, Option<Tick>)
    requires s.Valid() && u.vehicleIndex < MAX_CARS
  {
    var s' := Counted(s, u);
    (s', if s'.numReplied + s'.numCompleted == s'.numCars
         then Some(Tick(u.tickId, s'.command, u.durationNs)) else None)
  }

  /** Which updates reach the orchestrator: all of an edge scenario, the spectator's, and everyone's last one. */
  lemma ReportsQueued(s: Server, u: VehicleUpdate)
    requires s.Valid() && u.vehicleIndex < MAX_CARS
    ensures SendUpdate(s, u).0.pending ==
            if s.isEdge || u.vehicleIndex == 0 || u.vehicleState == TICK_DONE || u.vehicleState == DEBUG_INFO_UPDATE
            then s.pending + [FromUpdate(u)] else s.pending
  {
  }

  /** The push that ends either branch of Client_RegisterVehicle. */
  function RegistrationPush(s: Server): Option<Tick> {
    if s.numReplied == s.numCars then Some(Tick(TICK_ID_INVALID, s.command, INVALID_TIME)) else None
  }

  /** Client_RegisterVehicle, REGISTERING: the index handed out is the old count. */
  function Register(s: Server): (Server, nat) {
    (s.(numRegistered := s.numRegistered + 1, clients := s.clients + 1), s.numRegistered)
  }

  /** Client_RegisterVehicle, CARLA_UPDATE. */
  function CarlaUpdate(s: Server, index: nat): Server {
    s.(pending := s.pending + [FromCarla(index)], numReplied := s.numReplied + 1)
  }

  function Cleared(s: seq<bool>, n: int): seq<bool> {
    seq(|s|, i requires 0 <= i < |s| => if i < n then false else s[i])
  }

  /** Server_DoTick: the new state; `Broadcast` gives the pushes. */
  function DoTick(s: Server, t: Tick): Server {
    s.(repliedCars := Cleared(s.repliedCars, s.numCars), numReplied := 0,
       tickId := s.tickId + 1, command := t.command)
  }

  /** One push per client. */
  function Broadcast(clients: nat, t: Tick): seq<Tick> {
    seq(clients, _ => t)
  }

  function PushWaypoints(s: Server, buffers: seq<WaypointBuffer>): Server {
    s.(waypoints := buffers)
  }

  /** Client_GetWaypoints: the first buffer for that vehicle, or an empty reply (which a protobuf
      reader sees as index 0 and no waypoints). */
  function GetWaypoints(buffers: seq<WaypointBuffer>, index: nat): WaypointBuffer {
    if buffers == [] then WaypointBuffer(0, [])
    else if buffers[0].vehicleIndex == index then buffers[0]
    else GetWaypoints(buffers[1..], index)
  }

  function EndScenario(s: Server): Server {
    s.(command := END)
  }

  /** Which buffer a vehicle gets: the one with its index that has no earlier one. */
  lemma {:induction false} GetWaypointsIsFirst(buffers: seq<WaypointBuffer>, index: nat, k: nat)
    requires k < |buffers| && buffers[k].vehicleIndex == index
    requires forall j :: 0 <= j < k ==> buffers[j].vehicleIndex != index
    ensures GetWaypoints(buffers, index) == buffers[k]
  {
    if k > 0 {
      assert buffers[0].vehicleIndex != index;
      GetWaypointsIsFirst(buffers[1..], index, k - 1);
    }
  }

  lemma {:induction false} ReverseAppend<T>(s: seq<T>, t: seq<T>)
    ensures Reverse(s + t) == Reverse(t) + Reverse(s)
  {
    if t == [] {
      assert s + t == s;
    } else {
      assert (s + t)[..|s + t| - 1] == s + t[..|t| - 1];
      ReverseAppend(s, t[..|t| - 1]);
    }
  }

  lemma {:induction false} ReverseAt<T>(s: seq<T>, i: nat)
    requires i < |s|
    ensures Reverse(s)[i] == s[|s| - 1 - i]
  {
    if i > 0 { ReverseAt(s[..|s| - 1], i - 1); }
  }

  /** A drain call hands out the newest reports, newest first. */
  lemma RepliesNewestFirst(s: Server, i: nat)
    requires i < |GetUpdates(s).1|
    ensures |GetUpdates(s).1| + |GetUpdates(s).0.pending| == |s.pending|
    ensures GetUpdates(s).1[i] == s.pending[|s.pending| - 1 - i]
    ensures GetUpdates(s).0.pending == s.pending[..|s.pending| - |GetUpdates(s).1|]
  {
    ReverseAt(s.pending[|s.pending| - BatchOf(|s.pending|)..], i);
  }

  /** A vehicle without a buffer gets an empty reply. */
  lemma {:induction false} NoWaypoints(buffers: seq<WaypointBuffer>, index: nat)
    requires forall j :: 0 <= j < |buffers| ==> buffers[j].vehicleIndex != index
    ensures GetWaypoints(buffers, index).waypoints == [] && GetWaypoints(buffers, index).vehicleIndex == 0
  {
    if buffers != [] {
      NoWaypoints(buffers[1..], index);
    }
  }

  lemma ReverseNext(queue: seq<Report>, k: nat)
    requires k < |queue|
    ensures Reverse(queue[k..]) == Reverse(queue[k + 1..]) + [queue[k]]
  {
    assert queue[k..] == [queue[k]] + queue[k + 1..];
    ReverseAppend([queue[k]], queue[k + 1..]);
  }

  class EcloudServiceImpl {
    var numCars: int
    var isEdge: bool
    var numCompleted: int
    var numReplied: int
    var numRegistered: nat
    var tickId: int
    var command: Command
    const repliedCars: array<bool>
    var pendingReplies: seq<Report>
    var serializedEdgeWaypoints: seq<WaypointBuffer>
    var vehicleClients: nat

    ghost predicate Valid()
      reads this
    {
      numCars <= MAX_CARS && repliedCars.Length == MAX_CARS
    }

    ghost function State(): (s: Server)
      reads this, repliedCars
      requires Valid()
      ensures s.Valid()
    {
      Server(numCars, isEdge, numCompleted, numReplied, numRegistered, tickId, command,
             repliedCars[..], pendingReplies, serializedEdgeWaypoints, vehicleClients)
    }

    /** The constructor followed by Server_StartScenario. */
    constructor (cars: nat, edge: bool)
      requires cars <= MAX_CARS
      ensures Valid() && fresh(repliedCars) && State() == Started(cars, edge)
    {
      numCars, isEdge := cars, edge;
      numCompleted, numReplied, numRegistered, tickId, command := 0, 0, 0, 0, TICK;
      repliedCars := new bool[MAX_CARS](_ => false);
      pendingReplies, serializedEdgeWaypoints, vehicleClients := [], [], 0;
    }

    /** The batch loop: takes from the back. */
    method TakeBatch() returns (reply: seq<Report>)
      modifies this`pendingReplies
      ensures var queue := old(pendingReplies);
              var k := |queue| - BatchOf(|queue|);
              pendingReplies == queue[..k] && reply == Reverse(queue[k..])
    {
      ghost var queue := pendingReplies;
      var replies := Int16(|pendingReplies|);
      ghost var k := BatchOf(|queue|);
      reply := [];
      var i := 0;
      while i < replies && i <= VEHICLE_UPDATE_BATCH_SIZE
        invariant 0 <= i <= k
        invariant i == k || (i < replies && i <= VEHICLE_UPDATE_BATCH_SIZE)
        invariant pendingReplies == queue[..|queue| - i]
        invariant reply == Reverse(queue[|queue| - i..])
      {
        var last := |pendingReplies| - 1;
        ReverseNext(queue, |queue| - i - 1);
        reply := reply + [pendingReplies[last]];
        pendingReplies := pendingReplies[..last];
        i := i + 1;
      }
    }

    method GetVehicleUpdates() returns (reply: seq<Report>)
      requires Valid()
      modifies this
      ensures Valid() && (State(), reply) == GetUpdates(old(State()))
    {
      reply := TakeBatch();
      if |pendingReplies| == 0 {
        numReplied := 0;
      }
    }

    method ClientSendUpdate(request: VehicleUpdate) returns (push: Option<Tick>)
      requires Valid() && request.vehicleIndex < MAX_CARS
      modifies this, repliedCars
      ensures Valid() && (State(), push) == SendUpdate(old(State()), request)
      ensures pendingReplies ==
              if isEdge || request.vehicleIndex == 0
                 || request.vehicleState == TICK_DONE || request.vehicleState == DEBUG_INFO_UPDATE
              then old(pendingReplies) + [FromUpdate(request)] else old(pendingReplies)
    {
      if isEdge || request.vehicleIndex == SPECTATOR_INDEX
         || request.vehicleState == TICK_DONE || request.vehicleState == DEBUG_INFO_UPDATE {
        pendingReplies := pendingReplies + [FromUpdate(request)];
      }
      repliedCars[request.vehicleIndex] := true;
      if request.vehicleState == TICK_DONE {
        numCompleted := numCompleted + 1;
      } else if request.vehicleState == TICK_OK {
        numReplied := numReplied + 1;
      } else if request.vehicleState == DEBUG_INFO_UPDATE {
        numCompleted := numCompleted + 1;
      }
      var replies := numReplied;
      var completions := numCompleted;
      push := None;
      if replies + completions == numCars {
        push := Some(Tick(request.tickId, command, request.durationNs));
      }
      assert repliedCars[..] == old(repliedCars[..])[request.vehicleIndex := true];
    }

    method ClientGetWaypoints(index: nat) returns (buffer: WaypointBuffer)
      requires Valid()
      ensures buffer == GetWaypoints(serializedEdgeWaypoints, index)
    {
      buffer := WaypointBuffer(0, []);
      var i := 0;
      while i < |serializedEdgeWaypoints|
        invariant 0 <= i <= |serializedEdgeWaypoints|
        invariant GetWaypoints(serializedEdgeWaypoints, index) == GetWaypoints(serializedEdgeWaypoints[i..], index)
      {
        if serializedEdgeWaypoints[i].vehicleIndex == index {
          buffer := serializedEdgeWaypoints[i];
          return;
        }
        i := i + 1;
      }
    }

    method ClientRegisterVehicle() returns (index: nat, push: Option<Tick>)
      requires Valid()
      modifies this
      ensures Valid() && (State(), index) == Register(old(State()))
      ensures push == RegistrationPush(State())
    {
      index := numRegistered;
      vehicleClients := vehicleClients + 1;
      numRegistered := numRegistered + 1;
      push := if numReplied == numCars then Some(Tick(TICK_ID_INVALID, command, INVALID_TIME)) else None;
    }

    method ClientCarlaUpdate(index: nat) returns (push: Option<Tick>)
      requires Valid()
      modifies this
      ensures Valid() && State() == CarlaUpdate(old(State()), index)
      ensures push == RegistrationPush(State())
    {
      pendingReplies := pendingReplies + [FromCarla(index)];
      numReplied := numReplied + 1;
      push := if numReplied == numCars then Some(Tick(TICK_ID_INVALID, command, INVALID_TIME)) else None;
    }

    method ServerDoTick(request: Tick) returns (pushes: seq<Tick>)
      requires Valid() && tickId == request.tickId - 1
      modifies this, repliedCars
      ensures Valid() && State() == DoTick(old(State()), request)
      ensures pushes == Broadcast(old(State()).clients, Tick(request.tickId, request.command, INVALID_TIME))
    {
      var i := 0;
      while i < numCars
        invariant 0 <= i && (i <= numCars || i == 0)
        invariant forall j :: 0 <= j < MAX_CARS ==> repliedCars[j] == if j < i then false else old(repliedCars[j])
        invariant unchanged(this)
      {
        repliedCars[i] := false;
        i := i + 1;
      }
      assert repliedCars[..] == Cleared(old(repliedCars[..]), numCars);
      numReplied := 0;
      tickId := tickId + 1;
      command := request.command;
      pushes := [];
      i := 0;
      while i < vehicleClients
        invariant 0 <= i <= vehicleClients
        invariant pushes == Broadcast(i, Tick(request.tickId, command, INVALID_TIME))
      {
        pushes := pushes + [Tick(request.tickId, command, INVALID_TIME)];
        i := i + 1;
      }
    }

    method ServerPushEdgeWaypoints(buffers: seq<WaypointBuffer>)
      requires Valid()
      modifies this
      ensures Valid() && State() == PushWaypoints(old(State()), buffers)
    {
      serializedEdgeWaypoints := [];
      var i := 0;
      while i < |buffers|
        invariant 0 <= i <= |buffers|
        invariant Valid() && State() == PushWaypoints(old(State()), buffers[..i])
      {
        serializedEdgeWaypoints := serializedEdgeWaypoints + [buffers[i]];
        assert buffers[..i + 1] == buffers[..i] + [buffers[i]];
        i := i + 1;
      }
      assert buffers[..i] == buffers;
    }

    method ServerEndScenario() returns (pushes: seq<Tick>)
      requires Valid()
      modifies this
      ensures Valid() && State() == EndScenario(old(State()))
      ensures pushes == Broadcast(old(State()).clients, Tick(TICK_ID_INVALID, END, INVALID_TIME))
    {
      command := END;
      pushes := [];
      var i := 0;
      while i < vehicleClients
        invariant 0 <= i <= vehicleClients
        invariant pushes == Broadcast(i, Tick(TICK_ID_INVALID, END, INVALID_TIME))
      {
        pushes := pushes + [Tick(TICK_ID_INVALID, END, INVALID_TIME)];
        i := i + 1;
      }
    }
  }
}
