/** The messages of the eCloud protocol (opencda/protos/ecloud.proto). */
module Messages {

  datatype Option<+T> = None | Some(value: T)

  datatype Command = TICK | END | REQUEST_DEBUG_INFO | PULL_WAYPOINTS_AND_TICK

  datatype VehicleState =
    | REGISTERING
    | CARLA_UPDATE
    | UPDATE_INFO_OK
    | GET_DESTINATION
    | TICK_OK
    | TICK_DONE
    | OK
    | ERROR
    | DEBUG_INFO_UPDATE

  datatype Tick = Tick(tickId: int, command: Command, lastClientDurationNs: int)

  datatype VehicleUpdate = VehicleUpdate(tickId: int, vehicleIndex: nat, vehicleState: VehicleState, durationNs: int)

  /** What waits in `pendingReplies_`: serialized registrations and serialized vehicle updates. */
  datatype Report = FromCarla(vehicleIndex: nat) | FromUpdate(update: VehicleUpdate)

  /** A waypoint buffer; the waypoints themselves are opaque. */
  datatype WaypointBuffer = WaypointBuffer(vehicleIndex: nat, waypoints: seq<int>)

  const TICK_ID_INVALID := -1
  const INVALID_TIME := 0
  const SPECTATOR_INDEX := 0
  const MAX_CARS := 512

  /** The two states after which a vehicle stops reporting. */
  predicate IsDone(state: VehicleState) {
    state == TICK_DONE || state == DEBUG_INFO_UPDATE
  }
}
