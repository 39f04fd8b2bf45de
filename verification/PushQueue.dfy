/** The push server of a vehicle or of the orchestrator (opencda/ecloud_server/ecloud_comms.py). */
module PushQueue {
  import opened Messages

  datatype Push = Push(lastTickId: int, lastCommand: Option<Command>, lastDurationNs: int, que: seq<Tick>)

  const INITIAL := Push(0, None, 0, [])

  /** Is this a resend of the last tick? */
  predicate IsDupe(p: Push, t: Tick) {
    t.tickId == p.lastTickId && Some(t.command) == p.lastCommand && t.lastClientDurationNs == p.lastDurationNs
  }

  function Noted(p: Push, t: Tick): Push {
    Push(t.tickId, Some(t.command), t.lastClientDurationNs, p.que)
  }

  /** PushTick; `ok` is false when its queue-empty assertion fails, and then nothing is queued. */
  function PushTick(p: Push, t: Tick): (Push, bool) {
    var p' := if IsDupe(p, t) then p else Noted(p, t);
    if p.que != [] then (p', false)
    else if IsDupe(p, t) then (p', true)
    else (p'.(que := [t]), true)
  }

  /** A resend straight after an accepted tick leaves no second copy, whether the first copy is
      still queued or already taken. */
  lemma ResendIsDropped(p: Push, t: Tick, taken: bool)
    requires p.que == [] && !IsDupe(p, t)
    ensures var p' := PushTick(p, t).0;
            var read := if taken then p'.(que := []) else p';
            PushTick(read, t).0 == read
  {
  }

  class EcloudPushServer {
    var que: seq<Tick>
    var lastTickId: int
    var lastTickCommand: Option<Command>
    var lastTickLastClientDurationNs: int

    ghost function State(): Push
      reads this
    {
      Push(lastTickId, lastTickCommand, lastTickLastClientDurationNs, que)
    }

    constructor ()
      ensures State() == INITIAL
    {
      que, lastTickId, lastTickCommand, lastTickLastClientDurationNs := [], 0, None, 0;
    }

    method Receive(request: Tick) returns (ok: bool)
      modifies this
      ensures (State(), ok) == PushTick(old(State()), request)
    {
      var isDupe := request.tickId == lastTickId && Some(request.command) == lastTickCommand
                    && request.lastClientDurationNs == lastTickLastClientDurationNs;
      if !isDupe {
        lastTickId := request.tickId;
        lastTickCommand := Some(request.command);
        lastTickLastClientDurationNs := request.lastClientDurationNs;
      }
      if que != [] {
        return false;
      }
      if !isDupe {
        que := que + [request];
        assert que == [request];
      }
      ok := true;
    }
  }
}
