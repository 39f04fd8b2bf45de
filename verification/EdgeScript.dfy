/** The edge scenario's script: which ticks carry waypoints (ecloud_edge_16_car.py). */
module EdgeScript {
  import opened Messages
  import opened Numbers

  /** What the scenario script asks of the orchestrator. */
  datatype Order = PushSet | Send(command: Command)

  /** How many ticks were ordered. */
  function TicksIn(orders: seq<Order>): nat {
    if orders == [] then 0
    else TicksIn(orders[..|orders| - 1]) + if orders[|orders| - 1].Send? then 1 else 0
  }

  predicate EndsWith(orders: seq<Order>, o: Order) {
    orders != [] && orders[|orders| - 1] == o
  }

  lemma SendsNext(orders: seq<Order>, more: seq<Order>)
    requires |more| <= 1
    ensures TicksIn(orders + more) == TicksIn(orders) + TicksIn(more)
  {
    if more == [] {
      assert orders + more == orders;
    } else {
      assert (orders + more)[..|orders|] == orders && more[..0] == [];
    }
  }

  /** The command of tick `t` when the edge period is `k` world periods. */
  function CommandAt(t: nat, k: nat): Command
    requires k >= 1
  {
    if t % k == 0 then PULL_WAYPOINTS_AND_TICK else TICK
  }

  /** What the scenario orders up to and including tick `n`. */
  function Schedule(n: nat, k: nat): seq<Order>
    requires k >= 1
  {
    if n == 0 then []
    else Schedule(n - 1, k) + if n % k == 0 then [PushSet, Send(CommandAt(n, k))] else [Send(CommandAt(n, k))]
  }

  /** With the debug request at the end. */
  function Script(n: nat, k: nat): seq<Order>
    requires k >= 1
  {
    Schedule(n, k) + [Send(REQUEST_DEBUG_INFO)]
  }

  /** The script ends with the debug request, which it orders once. */
  lemma {:induction false} DebugComesLast(n: nat, k: nat, i: nat)
    requires k >= 1 && i < |Script(n, k)|
    ensures Script(n, k)[i] == Send(REQUEST_DEBUG_INFO) <==> i == |Script(n, k)| - 1
    ensures TicksIn(Script(n, k)) == n + 1
  {
    ScheduleSends(n, k);
    SendsNext(Schedule(n, k), [Send(REQUEST_DEBUG_INFO)]);
    assert [Send(REQUEST_DEBUG_INFO)][..0] == [];
    if i < |Schedule(n, k)| {
      NoDebug(n, k, i);
    }
  }

  lemma {:induction false} NoDebug(n: nat, k: nat, i: nat)
    requires k >= 1 && i < |Schedule(n, k)|
    ensures Schedule(n, k)[i] != Send(REQUEST_DEBUG_INFO)
  {
    if i < |Schedule(n - 1, k)| { NoDebug(n - 1, k, i); }
  }

  /** Every waypoint tick is ordered right after its waypoint push, and nothing else pushes. */
  lemma {:induction false} PushRightBeforeWaypointTick(n: nat, k: nat, i: nat)
    requires k >= 1 && i < |Schedule(n, k)|
    ensures Schedule(n, k)[i] == PushSet ==>
              i + 1 < |Schedule(n, k)| && Schedule(n, k)[i + 1] == Send(PULL_WAYPOINTS_AND_TICK)
    ensures Schedule(n, k)[i] == Send(PULL_WAYPOINTS_AND_TICK) ==> i > 0 && Schedule(n, k)[i - 1] == PushSet
  {
    if i < |Schedule(n - 1, k)| {
      PushRightBeforeWaypointTick(n - 1, k, i);
    }
  }

  lemma {:induction false} ScheduleSends(n: nat, k: nat)
    requires k >= 1
    ensures TicksIn(Schedule(n, k)) == n
  {
    if n > 0 {
      ScheduleSends(n - 1, k);
      var s, o := Schedule(n - 1, k), Send(CommandAt(n, k));
      if n % k == 0 {
        SendsNext(s, [PushSet]);
        SendsNext(s + [PushSet], [o]);
        assert s + [PushSet] + [o] == s + [PushSet, o];
        assert [PushSet][..0] == [];
      } else {
        SendsNext(s, [o]);
      }
      assert [o][..0] == [];
    }
  }

  /** The `t`-th tick of the schedule carries waypoints exactly when `k` divides `t`. */
  lemma {:induction false} ScheduleCommand(n: nat, k: nat, orders: seq<Order>, c: Command)
    requires k >= 1 && orders <= Schedule(n, k) && EndsWith(orders, Send(c))
    ensures c == CommandAt(TicksIn(orders), k)
  {
    var s := Schedule(n - 1, k);
    if |orders| <= |s| {
      assert orders <= s;
      ScheduleCommand(n - 1, k, orders, c);
    } else {
      ScheduleSends(n, k);
      assert orders[|orders| - 1] == Schedule(n, k)[|orders| - 1];
      assert orders == Schedule(n, k);
    }
  }

  lemma ScriptCommand(n: nat, k: nat, orders: seq<Order>, c: Command)
    requires k >= 1 && orders <= Script(n, k) && EndsWith(orders, Send(c))
    ensures c == CommandAt(TicksIn(orders), k) || (c == REQUEST_DEBUG_INFO && orders == Script(n, k))
  {
    if |orders| <= |Schedule(n, k)| {
      assert orders <= Schedule(n, k);
      ScheduleCommand(n, k, orders, c);
    } else {
      assert orders == Script(n, k);
    }
  }

  // ---- The scenario loop ----

  const STEP_COUNT := 300

  /** The remainder that Python's `%` gives for positive floats, without rounding. */
  function Mod(x: real, d: real): real
    requires d > 0.0
  {
    x - d * (x / d).Floor as real
  }

  lemma ProperFraction(x: real, d: real)
    requires 0.0 < x < d
    ensures 0.0 < x / d < 1.0
  {
    var q := x / d;
    assert q * d == x;
    if q >= 1.0 {
      ScaleReal(1.0, q, d);
      assert false;
    }
    if q <= 0.0 {
      ScaleReal(q, 0.0, d);
      assert false;
    }
  }

  function Multiple(n: nat, dt: real): real { n as real * dt }

  lemma MultipleNext(n: nat, dt: real)
    ensures Multiple(n, dt) + dt == Multiple(n + 1, dt)
  {
  }

  lemma ModOfMultiple(i: nat, k: nat, dt: real)
    requires 1 <= i <= k && dt > 0.0
    ensures Multiple(k, dt) > 0.0
    ensures Mod(Multiple(i, dt), Multiple(k, dt)) == 0.0 <==> i == k
  {
    var x, d := Multiple(i, dt), Multiple(k, dt);
    ScaleReal(1.0, k as real, dt);
    if i == k {
      assert x == d && x / d == 1.0;
    } else {
      ScaleReal(1.0, i as real, dt);
      ScaleReal(i as real + 1.0, k as real, dt);
      ProperFraction(x, d);
      assert (x / d).Floor == 0;
    }
  }

  /** run_scenario's loop: the elapsed world time decides which ticks carry waypoints. */
  method RunScenario(worldDt: real, k: nat) returns (orders: seq<Order>)
    requires worldDt > 0.0 && k >= 1
    ensures orders == Script(STEP_COUNT + 1, k)
  {
    var edgeDt := Multiple(k, worldDt);
    var step, flag, worldTime := 0, true, 0.0;
    orders := [];
    ghost var i: nat := 0;
    while flag
      invariant 0 <= step <= STEP_COUNT + 1 && (flag <==> step <= STEP_COUNT)
      invariant 0 <= i < k && i == step % k && worldTime == Multiple(i, worldDt)
      invariant orders == if flag then Schedule(step, k) else Schedule(step, k) + [Send(REQUEST_DEBUG_INFO)]
      decreases STEP_COUNT + 1 - step
    {
      worldTime := worldTime + worldDt;
      MultipleNext(i, worldDt);
      ModOfMultiple(i + 1, k, worldDt);
      NextResidue(step, k);
      if Mod(worldTime, edgeDt) == 0.0 {
        worldTime := 0.0;
        i := 0;
        orders := orders + [PushSet, Send(PULL_WAYPOINTS_AND_TICK)];
      } else {
        i := i + 1;
        orders := orders + [Send(TICK)];
      }
      step := step + 1;
      if step > STEP_COUNT {
        orders := orders + [Send(REQUEST_DEBUG_INFO)];
        flag := false;
      }
    }
  }

  lemma NextResidue(n: nat, k: nat)
    requires k >= 1
    ensures (n + 1) % k == if n % k + 1 == k then 0 else n % k + 1
  {
    var q, r := n / k, n % k;
    assert n + 1 == q * k + (r + 1);
    if r + 1 == k {
      assert n + 1 == (q + 1) * k;
      DivisionIsUnique(n + 1, k, q + 1, 0);
    } else {
      DivisionIsUnique(n + 1, k, q, r + 1);
    }
  }

  lemma DivisionIsUnique(n: nat, k: nat, q: nat, r: nat)
    requires k >= 1 && n == q * k + r && r < k
    ensures n % k == r
  {
    SmallMultiple(n / k - q, k, r - n % k);
  }

  lemma SmallMultiple(x: int, k: int, y: int)
    requires k >= 1 && x * k == y && -k < y < k
    ensures y == 0
  {
    if x >= 1 {
      ScaleInt(1, x, k);
    }
    if x <= -1 {
      ScaleInt(x, -1, k);
    }
  }
}
