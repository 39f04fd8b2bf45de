/** Building a traffic light's connections and its default phase program (scripts/netconvert_carla.py,
    class `SumoTrafficLight`). */
module TrafficLight {
  import opened Messages

  const GREEN_DURATION := 42
  const YELLOW_DURATION := 3
  const RED_DURATION := 3

  datatype Connection = Connection(tlid: string, fromRoad: string, toRoad: string, fromLane: int, toLane: int,
                                   linkIndex: int)

  datatype Phase = Phase(duration: nat, state: string, minDur: int, maxDur: int, next: Option<int>, name: string)

  /** The arguments of one `add_landmark` call; -1 asks for the next index. */
  datatype Landmark = Landmark(id: string, tlid: string, fromRoad: string, toRoad: string, fromLane: int, toLane: int,
                               linkIndex: int)

  /** What calls build up. */
  datatype Lights = Lights(connections: set<Connection>, parameters: set<(int, string)>)

  predicate SameConnection(c: Connection, d: Connection) {
    c.fromRoad == d.fromRoad && c.toRoad == d.toRoad && c.fromLane == d.fromLane && c.toLane == d.toLane
  }

  function ConnectionOf(m: Landmark, n: nat): Connection {
    Connection(m.tlid, m.fromRoad, m.toRoad, m.fromLane, m.toLane, if m.linkIndex == -1 then n else m.linkIndex)
  }

  predicate Known(connections: set<Connection>, c: Connection) {
    exists d :: d in connections && SameConnection(c, d)
  }

  function Include(l: Lights, m: Landmark): Lights {
    var c := ConnectionOf(m, |l.connections|);
    if Known(l.connections, c) then l else Lights(l.connections + {c}, l.parameters + {(c.linkIndex, m.id)})
  }

  function IncludeAll(ms: seq<Landmark>): Lights {
    if ms == [] then Lights({}, {}) else Include(IncludeAll(ms[..|ms| - 1]), ms[|ms| - 1])
  }

  /** A landmark of a connection already there, by roads and lanes, changes nothing; any other adds its connection
      and parameter, with the number of connections as index if it asks for none. */
  lemma IncludeIs(l: Lights, m: Landmark)
    ensures var index := if m.linkIndex == -1 then |l.connections| else m.linkIndex;
            Include(l, m) ==
            if exists d :: d in l.connections && d.fromRoad == m.fromRoad && d.toRoad == m.toRoad
                             && d.fromLane == m.fromLane && d.toLane == m.toLane
            then l
            else Lights(l.connections + {Connection(m.tlid, m.fromRoad, m.toRoad, m.fromLane, m.toLane, index)},
                        l.parameters + {(index, m.id)})
  {
    var c := ConnectionOf(m, |l.connections|);
    if d :| d in l.connections && d.fromRoad == m.fromRoad && d.toRoad == m.toRoad
            && d.fromLane == m.fromLane && d.toLane == m.toLane {
      assert SameConnection(c, d);
    }
  }

  /** Link indices are exactly 0 .. n - 1, one for each of n different connections, with one parameter each. */
  ghost predicate Numbered(l: Lights) {
    var n := |l.connections|;
    && (forall c :: c in l.connections ==> 0 <= c.linkIndex < n)
    && (forall i: nat :: i < n ==> HasLink(l.connections, i) && HasParameter(l.parameters, i))
    && (forall c, d :: c in l.connections && d in l.connections && c != d ==>
        c.linkIndex != d.linkIndex && !SameConnection(c, d))
    && (forall p :: p in l.parameters ==> 0 <= p.0 < n)
    && (forall p, q :: p in l.parameters && q in l.parameters && p != q ==> p.0 != q.0)
  }

  ghost predicate HasLink(connections: set<Connection>, i: nat) { exists c :: c in connections && c.linkIndex == i }
  ghost predicate HasParameter(parameters: set<(int, string)>, i: nat) { exists p :: p in parameters && p.0 == i }

  lemma StillLinked(l: Lights, c: Connection, p: (int, string), i: nat)
    requires HasLink(l.connections, i) && HasParameter(l.parameters, i)
    ensures HasLink(l.connections + {c}, i) && HasParameter(l.parameters + {p}, i)
  {
    var d :| d in l.connections && d.linkIndex == i;
    var q :| q in l.parameters && q.0 == i;
    assert d in l.connections + {c} && q in l.parameters + {p};
  }

  lemma NextLinked(l: Lights, c: Connection, p: (int, string))
    ensures c.linkIndex >= 0 ==> HasLink(l.connections + {c}, c.linkIndex)
    ensures p.0 >= 0 ==> HasParameter(l.parameters + {p}, p.0)
  {
    assert c in l.connections + {c} && p in l.parameters + {p};
  }

  lemma IncludeKeepsNumbered(l: Lights, m: Landmark)
    requires Numbered(l) && m.linkIndex == -1
    ensures Numbered(Include(l, m))
  {
    var n, c := |l.connections|, ConnectionOf(m, |l.connections|);
    if !Known(l.connections, c) {
      var l' := Include(l, m);
      assert c !in l.connections by { assert SameConnection(c, c); }
      assert |l'.connections| == n + 1;
      forall i: nat | i < n + 1
        ensures HasLink(l'.connections, i) && HasParameter(l'.parameters, i)
      {
        if i < n {
          StillLinked(l, c, (n, m.id), i);
        } else {
          NextLinked(l, c, (n, m.id));
        }
      }
    }
  }

  /** However many landmarks are added with the default index, links stay numbered. */
  lemma {:induction false} AllNumbered(ms: seq<Landmark>)
    requires forall i :: 0 <= i < |ms| ==> ms[i].linkIndex == -1
    ensures Numbered(IncludeAll(ms))
  {
    if ms != [] {
      AllNumbered(ms[..|ms| - 1]);
      IncludeKeepsNumbered(IncludeAll(ms[..|ms| - 1]), ms[|ms| - 1]);
    }
  }

  // ---- The default program ----

  /** The element a Python list of length `n` means by index `i`, if any. */
  function Slot(i: int, n: nat): Option<nat> {
    if 0 <= i < n then Some(i) else if i < 0 <= i + n then Some(i + n) else None
  }

  /** Counted from the front or, if negative, from the end. */
  lemma SlotIs(i: int, n: nat, k: nat)
    ensures Slot(i, n) == Some(k) <==> k < n && (k == i || k == i + n)
  {
  }

  /** Does a connection of this road control link `i`? */
  predicate Serves(connections: set<Connection>, road: string, n: nat, i: nat) {
    exists c :: c in connections && c.fromRoad == road && Slot(c.linkIndex, n) == Some(i)
  }

  function StateOf(connections: set<Connection>, road: string, n: nat, signal: char): (s: string)
    ensures |s| == n
  {
    seq(n, i requires 0 <= i < n => if Serves(connections, road, n, i) then signal else 'r')
  }

  function PhaseOf(duration: nat, state: string): Phase {
    Phase(duration, state, -1, -1, None, "")
  }

  /** Green, yellow, then red for everyone. */
  function Triple(connections: set<Connection>, road: string): (ps: seq<Phase>)
    ensures |ps| == 3
  {
    var n := |connections|;
    [PhaseOf(GREEN_DURATION, StateOf(connections, road, n, 'g')),
     PhaseOf(YELLOW_DURATION, StateOf(connections, road, n, 'y')),
     PhaseOf(RED_DURATION, seq(n, _ => 'r'))]
  }

  function Program(connections: set<Connection>, order: seq<string>): (ps: seq<Phase>)
    ensures |ps| == 3 * |order|
  {
    if order == [] then []
    else Program(connections, order[..|order| - 1]) + Triple(connections, order[|order| - 1])
  }

  /** Each road has 42 seconds of green, 3 of yellow and 3 of red, every other field as `add_phase` sets it. */
  lemma {:induction false} PhasesAre(connections: set<Connection>, order: seq<string>, p: nat)
    requires p < 3 * |order|
    ensures var phase := Program(connections, order)[p];
            && phase.duration == (if p % 3 == 0 then 42 else 3) && |phase.state| == |connections|
            && phase.minDur == phase.maxDur == -1 && phase.next == None && phase.name == ""
  {
    if p < 3 * (|order| - 1) {
      PhasesAre(connections, order[..|order| - 1], p);
    }
  }

  function Incoming(connections: set<Connection>): set<string> {
    set c | c in connections :: c.fromRoad
  }

  predicate Writable(connections: set<Connection>, n: nat) {
    forall c :: c in connections ==> Slot(c.linkIndex, n).Some?
  }

  /** Some order of the incoming roads. */
  ghost predicate IsOrder(order: seq<string>, connections: set<Connection>) {
    && (forall i, j :: 0 <= i < j < |order| ==> order[i] != order[j])
    && (forall r :: r in order <==> r in Incoming(connections))
  }

  class SumoTrafficLight {
    var phases: seq<Phase>
    var parameters: set<(int, string)>
    var connections: set<Connection>

    constructor ()
      ensures phases == [] && Lights(connections, parameters) == IncludeAll([])
    {
      phases, parameters, connections := [], {}, {};
    }

    method AddPhase(duration: nat, state: string, minDur: int := -1, maxDur: int := -1,
                    next: Option<int> := None, name: string := "")
      modifies this`phases
      ensures phases == old(phases) + [Phase(duration, state, minDur, maxDur, next, name)]
    {
      phases := phases + [Phase(duration, state, minDur, maxDur, next, name)];
    }

    method AddLandmark(m: Landmark) returns (added: bool)
      modifies this`connections, this`parameters
      ensures Lights(connections, parameters) == Include(old(Lights(connections, parameters)), m)
      ensures added <==> !Known(old(connections), ConnectionOf(m, |old(connections)|))
    {
      var linkIndex := m.linkIndex;
      if linkIndex == -1 {
        linkIndex := |connections|;
      }
      var connection := Connection(m.tlid, m.fromRoad, m.toRoad, m.fromLane, m.toLane, linkIndex);
      if exists c :: c in connections && SameConnection(connection, c) {
        return false;
      }
      connections := connections + {connection};
      parameters := parameters + {(linkIndex, m.id)};
      return true;
    }

    /** The states of one road, or failure on an index outside the list. */
    method Paint(road: string) returns (ok: bool, green: string, yellow: string)
      ensures ok <==> forall c :: c in connections && c.fromRoad == road ==> Slot(c.linkIndex, |connections|).Some?
      ensures ok ==> green == StateOf(connections, road, |connections|, 'g')
      ensures ok ==> yellow == StateOf(connections, road, |connections|, 'y')
    {
      var n := |connections|;
      green, yellow := seq(n, _ => 'r'), seq(n, _ => 'r');
      var rest, done: set<Connection> := connections, {};
      while rest != {}
        invariant rest !! done && rest + done == connections
        invariant forall c :: c in done && c.fromRoad == road ==> Slot(c.linkIndex, n).Some?
        invariant green == StateOf(done, road, n, 'g') && yellow == StateOf(done, road, n, 'y')
      {
        var c :| c in rest;
        if c.fromRoad == road {
          var slot := Slot(c.linkIndex, n);
          if slot.None? {
            return false, green, yellow;
          }
          green, yellow := green[slot.value := 'g'], yellow[slot.value := 'y'];
        }
        OneMore(done, c, road, n, 'g');
        OneMore(done, c, road, n, 'y');
        rest, done := rest - {c}, done + {c};
      }
      assert done == connections;
      return true, green, yellow;
    }

    /** Appends one road's phases, unless an index is outside the list. */
    method AddRoad(road: string) returns (ok: bool)
      modifies this`phases
      ensures ok <==> forall c :: c in connections && c.fromRoad == road ==> Slot(c.linkIndex, |connections|).Some?
      ensures phases == old(phases) + if ok then Triple(connections, road) else []
    {
      var painted, green, yellow := Paint(road);
      if !painted {
        return false;
      }
      AddPhase(GREEN_DURATION, green);
      AddPhase(YELLOW_DURATION, yellow);
      AddPhase(RED_DURATION, seq(|connections|, _ => 'r'));
      return true;
    }

    /** Appends the program, taking the roads in the set's order; an index outside the list stops it. */
    method GenerateDefaultProgram() returns (ok: bool, order: seq<string>)
      modifies this`phases
      ensures ok <==> Writable(connections, |connections|)
      ensures phases == old(phases) + Program(connections, order)
      ensures ok ==> IsOrder(order, connections)
    {
      var rest := Incoming(connections);
      order := [];
      while rest != {}
        invariant forall r :: r in order <==> r in Incoming(connections) && r !in rest
        invariant rest <= Incoming(connections)
        invariant forall i, j :: 0 <= i < j < |order| ==> order[i] != order[j]
        invariant forall c :: c in connections && c.fromRoad !in rest ==> Slot(c.linkIndex, |connections|).Some?
        invariant phases == old(phases) + Program(connections, order)
      {
        var road :| road in rest;
        var added := AddRoad(road);
        if !added {
          return false, order;
        }
        assert (order + [road])[..|order|] == order;
        order := order + [road];
        rest := rest - {road};
      }
      return true, order;
    }
  }

  lemma OneMore(done: set<Connection>, c: Connection, road: string, n: nat, signal: char)
    ensures StateOf(done + {c}, road, n, signal) ==
            if c.fromRoad == road && Slot(c.linkIndex, n).Some?
            then StateOf(done, road, n, signal)[Slot(c.linkIndex, n).value := signal]
            else StateOf(done, road, n, signal)
  {
    forall i: nat | i < n
      ensures Serves(done + {c}, road, n, i) <==>
              Serves(done, road, n, i) || (c.fromRoad == road && Slot(c.linkIndex, n) == Some(i))
    {
      if d :| d in done && d.fromRoad == road && Slot(d.linkIndex, n) == Some(i) {
        assert d in done + {c};
      }
      assert c in done + {c};
    }
  }

  // ---- Safety ----

  lemma {:induction false} ProgramAt(connections: set<Connection>, order: seq<string>, k: nat)
    requires k < |order|
    ensures Program(connections, order)[3 * k..3 * k + 3] == Triple(connections, order[k])
  {
    if k < |order| - 1 {
      var front := order[..|order| - 1];
      ProgramAt(connections, front, k);
      var p := Program(connections, front);
      assert Program(connections, order)[3 * k..3 * k + 3] == p[3 * k..3 * k + 3];
    }
  }

  /** Phase `p` belongs to road `p / 3` of the order: green, yellow or all red. */
  lemma PhaseAt(connections: set<Connection>, order: seq<string>, p: nat)
    requires p < 3 * |order|
    ensures Program(connections, order)[p] == Triple(connections, order[p / 3])[p % 3]
  {
    ProgramAt(connections, order, p / 3);
    var s := Program(connections, order)[3 * (p / 3)..3 * (p / 3) + 3];
    assert s[p % 3] == Program(connections, order)[p];
  }

  function Signal(connections: set<Connection>, order: seq<string>, p: nat, i: nat): char
    requires p < 3 * |order| && i < |connections|
  {
    PhaseAt(connections, order, p);
    Program(connections, order)[p].state[i]
  }

  /** Every phase's state covers every link; every third phase is red for all. */
  lemma SignalIs(connections: set<Connection>, order: seq<string>, p: nat, i: nat)
    requires p < 3 * |order| && i < |connections|
    ensures Signal(connections, order, p, i) ==
            if p % 3 == 2 || !Serves(connections, order[p / 3], |connections|, i) then 'r'
            else if p % 3 == 0 then 'g' else 'y'
  {
    PhaseAt(connections, order, p);
  }

  /** With numbered links, link `i` shows green in one phase, yellow in the next, and red in all others. */
  lemma OneGreenThenYellow(l: Lights, order: seq<string>, i: nat) returns (k: nat)
    requires Numbered(l) && IsOrder(order, l.connections) && i < |l.connections|
    ensures k < |order|
    ensures forall p :: 0 <= p < 3 * |order| ==>
              Signal(l.connections, order, p, i) == if p == 3 * k then 'g' else if p == 3 * k + 1 then 'y' else 'r'
  {
    var n := |l.connections|;
    assert HasLink(l.connections, i);
    var c :| c in l.connections && c.linkIndex == i;
    assert c.fromRoad in Incoming(l.connections);
    k :| 0 <= k < |order| && order[k] == c.fromRoad;
    forall p | 0 <= p < 3 * |order|
      ensures Signal(l.connections, order, p, i) == if p == 3 * k then 'g' else if p == 3 * k + 1 then 'y' else 'r'
    {
      SignalIs(l.connections, order, p, i);
      OnlyOwnRoad(l, order, i, c, p / 3, k);
    }
  }

  lemma OnlyOwnRoad(l: Lights, order: seq<string>, i: nat, c: Connection, q: nat, k: nat)
    requires Numbered(l) && IsOrder(order, l.connections) && c in l.connections && c.linkIndex == i < |l.connections|
    requires q < |order| && k < |order| && order[k] == c.fromRoad
    ensures Serves(l.connections, order[q], |l.connections|, i) <==> q == k
  {
    var n := |l.connections|;
    if d :| d in l.connections && d.fromRoad == order[q] && Slot(d.linkIndex, n) == Some(i) {
      assert d.linkIndex == i;
      assert d == c;
    }
  }

  /** Do connections of two different roads ever both show other than red? */
  ghost predicate Meet(connections: set<Connection>, order: seq<string>, p: nat, c: Connection, d: Connection)
    requires p < 3 * |order|
  {
    && c in connections && d in connections && c.fromRoad != d.fromRoad
    && var i, j := Slot(c.linkIndex, |connections|), Slot(d.linkIndex, |connections|);
       i.Some? && j.Some? && Signal(connections, order, p, i.value) != 'r'
           && Signal(connections, order, p, j.value) != 'r'
  }

  predicate Share(connections: set<Connection>, c: Connection, d: Connection) {
    && c in connections && d in connections && c.fromRoad != d.fromRoad
    && Slot(c.linkIndex, |connections|) == Slot(d.linkIndex, |connections|)
  }

  lemma MeetingShares(connections: set<Connection>, order: seq<string>, p: nat, c: Connection, d: Connection)
    returns (e: Connection, f: Connection)
    requires p < 3 * |order| && Meet(connections, order, p, c, d)
    ensures Share(connections, e, f)
  {
    var n, road := |connections|, order[p / 3];
    var i, j := Slot(c.linkIndex, n).value, Slot(d.linkIndex, n).value;
    SignalIs(connections, order, p, i);
    SignalIs(connections, order, p, j);
    if c.fromRoad != road {
      e := c;
      f :| f in connections && f.fromRoad == road && Slot(f.linkIndex, n) == Some(i);
    } else {
      e := d;
      f :| f in connections && f.fromRoad == road && Slot(f.linkIndex, n) == Some(j);
    }
  }

  lemma SharingMeets(connections: set<Connection>, order: seq<string>, c: Connection, d: Connection) returns (p: nat)
    requires IsOrder(order, connections) && Writable(connections, |connections|) && Share(connections, c, d)
    ensures p < 3 * |order| && Meet(connections, order, p, c, d)
  {
    assert c.fromRoad in Incoming(connections);
    var k :| 0 <= k < |order| && order[k] == c.fromRoad;
    p := 3 * k;
    SignalIs(connections, order, p, Slot(c.linkIndex, |connections|).value);
  }

  /** Two incoming roads are non-red together in some phase exactly when connections of theirs share a link. */
  lemma RoadsMeetIffLinksShared(connections: set<Connection>, order: seq<string>)
    requires IsOrder(order, connections) && Writable(connections, |connections|)
    ensures (exists p: nat, c, d :: p < 3 * |order| && Meet(connections, order, p, c, d))
            <==> (exists c, d :: Share(connections, c, d))
  {
    if p: nat, c, d :| p < 3 * |order| && Meet(connections, order, p, c, d) {
      var e, f := MeetingShares(connections, order, p, c, d);
    }
    if c, d :| Share(connections, c, d) {
      var p := SharingMeets(connections, order, c, d);
    }
  }

  /** With numbered links the program can be written and no two incoming roads are non-red together. */
  lemma NumberedIsSafe(l: Lights, order: seq<string>)
    requires Numbered(l) && IsOrder(order, l.connections)
    ensures Writable(l.connections, |l.connections|)
    ensures forall p: nat, c, d :: p < 3 * |order| ==> !Meet(l.connections, order, p, c, d)
  {
    RoadsMeetIffLinksShared(l.connections, order);
    forall c, d
      ensures !Share(l.connections, c, d)
    {
    }
  }

  /** Between a phase in which one road is not red and a later one in which another is, all links are red once. */
  lemma AllRedBetween(connections: set<Connection>, order: seq<string>, p: nat, q: nat, i: nat, j: nat) returns (r: nat)
    requires p < q < 3 * |order| && i < |connections| && j < |connections| && order[p / 3] != order[q / 3]
    requires Signal(connections, order, p, i) != 'r' && Signal(connections, order, q, j) != 'r'
    ensures p < r < q && forall k :: 0 <= k < |connections| ==> Signal(connections, order, r, k) == 'r'
  {
    r := 3 * (p / 3) + 2;
    SignalIs(connections, order, p, i);
    forall k | 0 <= k < |connections|
      ensures Signal(connections, order, r, k) == 'r'
    {
      SignalIs(connections, order, r, k);
    }
  }

  const NORTH := Landmark("a", "t", "n", "s", 0, 0, 0)
  const EAST := Landmark("b", "t", "e", "w", 0, 0, 0)

  lemma BothIncluded()
    ensures IncludeAll([NORTH, EAST]).connections == {ConnectionOf(NORTH, 0), ConnectionOf(EAST, 0)}
  {
    assert [NORTH, EAST][..1] == [NORTH] && [NORTH][..0] == [];
    assert IncludeAll([]) == Lights({}, {});
    assert IncludeAll([NORTH]) == Include(Lights({}, {}), NORTH);
    assert ConnectionOf(NORTH, 0).fromRoad[0] != ConnectionOf(EAST, 0).fromRoad[0];
  }

  /** With explicit indices two landmarks can take the same link: the program shows two roads green together. */
  lemma ExplicitIndicesCanClash(order: seq<string>)
    requires IsOrder(order, IncludeAll([NORTH, EAST]).connections)
    ensures exists p: nat, c, d :: p < 3 * |order| && Meet(IncludeAll([NORTH, EAST]).connections, order, p, c, d)
  {
    BothIncluded();
    var c, d := ConnectionOf(NORTH, 0), ConnectionOf(EAST, 0);
    assert c.fromRoad[0] != d.fromRoad[0];
    var p := SharingMeets({c, d}, order, c, d);
  }
}
