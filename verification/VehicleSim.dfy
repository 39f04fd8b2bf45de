/** The vehicle client (vehiclesim.py, `main`), cut at its awaits: each function is the code that
    runs between two suspension points. */
module VehicleSim {
  import opened Messages
  import opened PushQueue

  /** Where `main` is suspended.  `Waiting(true)` is the read before the loop, `Waiting(false)` the
      one inside it; `Crashed` is a failed assertion. */
  datatype Phase =
    | Unregistered
    | Registered
    | Joining
    | Waiting(first: bool)
    | Fetching
    | Running(command: Command)
    | Sending(update: VehicleUpdate)
    | Returning(update: VehicleUpdate)
    | Exited
    | Crashed

  datatype Vehicle = Vehicle(phase: Phase, tickId: int, reportedDone: bool, push: Push, buffers: seq<WaypointBuffer>)

  const FRESH := Vehicle(Unregistered, 0, false, INITIAL, [])

  /** The registration call returned: the queue must still be empty. */
  function Joined(v: Vehicle): Vehicle
    requires v.phase == Joining
  {
    v.(phase := if v.push.que == [] then Waiting(true) else Crashed)
  }

  /** A push is read.  The read before the loop neither records its id nor translates
      PULL_WAYPOINTS_AND_TICK. */
  function Take(v: Vehicle): Vehicle
    requires v.phase.Waiting? && v.push.que != []
  {
    var pong := v.push.que[0];
    var v' := v.(push := v.push.(que := v.push.que[1..]));
    if v.phase.first then
      v'.(phase := if pong.command == END then Exited else Running(pong.command))
    else if pong.tickId == v.tickId then
      v'.(phase := Crashed)
    else
      v'.(tickId := pong.tickId,
          phase := match pong.command
                   case PULL_WAYPOINTS_AND_TICK => Fetching
                   case END => Exited
                   case _ => Running(pong.command))
  }

  /** The waypoints arrived; only a client of an edge scenario has a network emulator to take them. */
  function Fetched(v: Vehicle, buffer: WaypointBuffer, isEdge: bool): Vehicle
    requires v.phase == Fetching
  {
    if isEdge then v.(phase := Running(TICK), buffers := v.buffers + [buffer]) else v.(phase := Crashed)
  }

  /** The update built for a command.  A command with no branch leaves the state at the protobuf
      default, REGISTERING. */
  function UpdateFor(command: Command, tickId: int, index: nat, arrived: bool, durationNs: int): VehicleUpdate {
    match command
    case REQUEST_DEBUG_INFO => VehicleUpdate(tickId, index, DEBUG_INFO_UPDATE, 0)
    case TICK => if arrived then VehicleUpdate(tickId, index, TICK_DONE, 0)
                 else VehicleUpdate(tickId, index, TICK_OK, durationNs)
    case _ => VehicleUpdate(tickId, index, REGISTERING, 0)
  }

  /** One pass of the loop body up to the send; `control` is the CONTROL done-behaviour. */
  function Stepped(v: Vehicle, index: nat, control: bool, arrived: bool, durationNs: int): Vehicle
    requires v.phase.Running?
  {
    if !v.reportedDone then
      v.(phase := Sending(UpdateFor(v.phase.command, v.tickId, index, arrived, durationNs)))
    else if !control then
      v.(phase := Exited)
    else
      v.(phase := if v.push.que == [] then Waiting(false) else Crashed)
  }

  /** The send call returned. */
  function Returned(v: Vehicle): Vehicle
    requires v.phase.Returning?
  {
    v.(reportedDone := v.reportedDone || IsDone(v.phase.update.vehicleState),
       phase := if v.push.que == [] then Waiting(false) else Crashed)
  }

  /** The same state as the objects and local variables of the running client. */
  class Client {
    const control: bool
    const isEdge: bool
    const vehicleIndex: nat
    const server: EcloudPushServer
    var phase: Phase
    var tickId: int
    var reportedDone: bool
    var buffers: seq<WaypointBuffer>

    ghost function State(): Vehicle
      reads this, server
    {
      Vehicle(phase, tickId, reportedDone, server.State(), buffers)
    }

    constructor (control: bool, isEdge: bool, index: nat)
      ensures State() == FRESH && fresh(server)
      ensures this.control == control && this.isEdge == isEdge && vehicleIndex == index
    {
      this.control, this.isEdge, vehicleIndex := control, isEdge, index;
      server := new EcloudPushServer();
      phase, tickId, reportedDone, buffers := Unregistered, 0, false, [];
    }

    method AfterJoin()
      requires phase == Joining
      modifies this
      ensures State() == Joined(old(State()))
    {
      if server.que == [] { phase := Waiting(true); } else { phase := Crashed; }
    }

    method TakePush()
      requires phase.Waiting? && server.que != []
      modifies this, server
      ensures State() == Take(old(State()))
    {
      var pong := server.que[0];
      server.que := server.que[1..];
      if phase.first {
        if pong.command == END { phase := Exited; } else { phase := Running(pong.command); }
      } else if pong.tickId == tickId {
        phase := Crashed;
      } else {
        tickId := pong.tickId;
        if pong.command == PULL_WAYPOINTS_AND_TICK {
          phase := Fetching;
        } else if pong.command == END {
          phase := Exited;
        } else {
          phase := Running(pong.command);
        }
      }
    }

    method EnqueueWaypoints(buffer: WaypointBuffer)
      requires phase == Fetching
      modifies this
      ensures State() == Fetched(old(State()), buffer, isEdge)
    {
      if isEdge {
        buffers := buffers + [buffer];
        phase := Running(TICK);
      } else {
        phase := Crashed;
      }
    }

    method RunStep(arrived: bool, durationNs: int)
      requires phase.Running?
      modifies this
      ensures State() == Stepped(old(State()), vehicleIndex, control, arrived, durationNs)
    {
      var state, duration := REGISTERING, 0;
      if phase.command == REQUEST_DEBUG_INFO {
        state := DEBUG_INFO_UPDATE;
      } else if phase.command == TICK {
        if arrived {
          state := TICK_DONE;
        } else {
          state, duration := TICK_OK, durationNs;
        }
      }
      if !reportedDone || control {
        if !reportedDone {
          phase := Sending(VehicleUpdate(tickId, vehicleIndex, state, duration));
        } else if server.que == [] {
          phase := Waiting(false);
        } else {
          phase := Crashed;
        }
      } else {
        phase := Exited;
      }
    }

    method AfterSend()
      requires phase.Returning?
      modifies this
      ensures State() == Returned(old(State()))
    {
      if phase.update.vehicleState == TICK_DONE || phase.update.vehicleState == DEBUG_INFO_UPDATE {
        reportedDone := true;
      }
      if server.que == [] { phase := Waiting(false); } else { phase := Crashed; }
    }
  }
}
