/** What happens to the reports that vehicles queue for the orchestrator
    (ecloud_server.cc, `pendingReplies_`; sim_api.py, `server_unpack_debug_data`). */
module Reports {
  import opened Messages
  import opened EcloudServer

  /** `calls` successive drain calls: what is left, and everything returned so far. */
  function Drained(pending: seq<Report>, calls: nat): (seq<Report>, seq<Report>)
    decreases calls
  {
    if calls == 0 then (pending, [])
    else
      var k := BatchOf(|pending|);
      var (rest, later) := Drained(pending[..|pending| - k], calls - 1);
      (rest, Reverse(pending[|pending| - k..]) + later)
  }

  const BATCH := VEHICLE_UPDATE_BATCH_SIZE + 1

  function Calls(n: nat): nat {
    (n + BATCH - 1) / BATCH
  }

  /** Nothing is lost, duplicated or reordered by any number of calls. */
  lemma {:induction false} DrainKeepsReports(pending: seq<Report>, calls: nat)
    ensures var (rest, out) := Drained(pending, calls);
            |rest| <= |pending| && rest == pending[..|rest|] && out == Reverse(pending[|rest|..])
    decreases calls
  {
    if calls == 0 {
      assert pending[|pending|..] == [];
    } else {
      var k := BatchOf(|pending|);
      var left := pending[..|pending| - k];
      DrainKeepsReports(left, calls - 1);
      var (rest, later) := Drained(left, calls - 1);
      assert pending[|rest|..] == left[|rest|..] + pending[|pending| - k..];
      ReverseAppend(left[|rest|..], pending[|pending| - k..]);
    }
  }

  /** A queue that fits an `int16_t` empties, newest report first, in exactly ceil(n/33) calls. */
  lemma {:induction false} DrainCompletes(pending: seq<Report>, calls: nat)
    requires |pending| < 0x8000
    ensures Drained(pending, Calls(|pending|)) == ([], Reverse(pending))
    ensures Drained(pending, calls).0 == [] <==> calls >= Calls(|pending|)
  {
    DrainKeepsReports(pending, Calls(|pending|));
    assert pending[0..] == pending;
    RestAfter(pending, Calls(|pending|));
    RestAfter(pending, calls);
  }

  lemma {:induction false} RestAfter(pending: seq<Report>, calls: nat)
    requires |pending| < 0x8000
    ensures |Drained(pending, calls).0| == if |pending| <= BATCH * calls then 0 else |pending| - BATCH * calls
    decreases calls
  {
    if calls > 0 {
      RestAfter(pending[..|pending| - BatchOf(|pending|)], calls - 1);
    }
  }

  /** A longer queue never empties, however often it is drained: the size read into an `int16_t`
      turns zero or negative first. */
  lemma {:induction false} DrainSticks(pending: seq<Report>, calls: nat)
    requires |pending| >= 0x8000
    ensures |Drained(pending, calls).0| >= 0x8000
    decreases calls
  {
    if calls > 0 {
      DrainSticks(pending[..|pending| - BatchOf(|pending|)], calls - 1);
    }
  }

  /** When draining until empty can succeed. */
  lemma DrainTerminates(pending: seq<Report>)
    ensures (exists calls: nat :: Drained(pending, calls).0 == []) <==> |pending| < 0x8000
  {
    if |pending| < 0x8000 {
      DrainCompletes(pending, 0);
      assert Drained(pending, Calls(|pending|)).0 == [];
    } else {
      forall calls: nat
        ensures Drained(pending, calls).0 != []
      {
        DrainSticks(pending, calls);
      }
    }
  }

  /** The registration hand-over drains once: it is complete only up to 33 cars. */
  lemma OneDrainEnough(pending: seq<Report>)
    requires |pending| <= MAX_CARS
    ensures Drained(pending, 1).0 == [] <==> |pending| <= BATCH
  {
    RestAfter(pending, 1);
  }

  // ---- Arbitrary sequences of handler calls ----

  datatype Call = Carla(index: nat) | Send(update: VehicleUpdate) | Fetch | NewTick(tick: Tick)

  /** One handler call: new server state, and what it hands to the orchestrator. */
  function Step(s: Server, c: Call): (r: (Server, seq<Report>))
    requires s.Valid()
    ensures r.0.Valid()
  {
    match c
    case Carla(index) => (CarlaUpdate(s, index), [])
    case Send(u) => (if u.vehicleIndex < MAX_CARS then SendUpdate(s, u).0 else s, [])
    case Fetch => GetUpdates(s)
    case NewTick(t) => (DoTick(s, t), [])
  }

  /** The reports a call adds to the queue. */
  function Added(s: Server, c: Call): seq<Report> {
    match c
    case Carla(index) => [FromCarla(index)]
    case Send(u) => if u.vehicleIndex < MAX_CARS && Queued(s, u) then [FromUpdate(u)] else []
    case Fetch => []
    case NewTick(_) => []
  }

  function Run(s: Server, calls: seq<Call>): (r: (Server, seq<Report>))
    requires s.Valid()
    ensures r.0.Valid()
    decreases |calls|
  {
    if calls == [] then (s, [])
    else
      var (s', out) := Step(s, calls[0]);
      var (last, later) := Run(s', calls[1..]);
      (last, out + later)
  }

  function AllAdded(s: Server, calls: seq<Call>): seq<Report>
    requires s.Valid()
    decreases |calls|
  {
    if calls == [] then [] else Added(s, calls[0]) + AllAdded(Step(s, calls[0]).0, calls[1..])
  }

  lemma {:induction false} ReverseMultiset<T>(s: seq<T>)
    ensures multiset(Reverse(s)) == multiset(s)
  {
    if s != [] {
      ReverseMultiset(s[..|s| - 1]);
      assert s == s[..|s| - 1] + [s[|s| - 1]];
    }
  }

  /** Report conservation: over any calls, what was queued is what was handed out plus what still
      waits, report by report. */
  lemma {:induction false} ReportsConserved(s: Server, calls: seq<Call>)
    requires s.Valid()
    ensures var (last, out) := Run(s, calls);
            multiset(s.pending) + multiset(AllAdded(s, calls)) == multiset(out) + multiset(last.pending)
    decreases |calls|
  {
    if calls != [] {
      var (s', out) := Step(s, calls[0]);
      var (last, later) := Run(s', calls[1..]);
      var (now, next) := (Added(s, calls[0]), AllAdded(s', calls[1..]));
      StepConserves(s, calls[0]);
      ReportsConserved(s', calls[1..]);
      SumChains(multiset(s.pending), multiset(s'.pending), multiset(last.pending),
                multiset(now), multiset(next), multiset(out), multiset(later));
      assert multiset(now + next) == multiset(now) + multiset(next);
      assert multiset(out + later) == multiset(out) + multiset(later);
    }
  }

  lemma SumChains<T>(p: multiset<T>, q: multiset<T>, r: multiset<T>,
                     a: multiset<T>, b: multiset<T>, c: multiset<T>, d: multiset<T>)
    requires p + a == c + q && q + b == d + r
    ensures p + (a + b) == (c + d) + r
  {
    calc {
      p + (a + b);
      (p + a) + b;
      c + (q + b);
      (c + d) + r;
    }
  }

  lemma FetchConserves(s: Server)
    requires s.Valid()
    ensures multiset(s.pending) == multiset(GetUpdates(s).1) + multiset(GetUpdates(s).0.pending)
  {
    var k := |s.pending| - BatchOf(|s.pending|);
    var a, b := s.pending[..k], s.pending[k..];
    ReverseMultiset(b);
    assert GetUpdates(s).1 == Reverse(b) && GetUpdates(s).0.pending == a;
    assert s.pending == a + b;
  }

  lemma StepConserves(s: Server, c: Call)
    requires s.Valid()
    ensures var (s', out) := Step(s, c);
            multiset(s.pending) + multiset(Added(s, c)) == multiset(out) + multiset(s'.pending)
  {
    if c == Fetch {
      FetchConserves(s);
    } else {
      assert Step(s, c).0.pending == s.pending + Added(s, c);
    }
  }
}
