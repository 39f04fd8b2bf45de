/** Ticks of reachable worlds whose split handlers all push. */
module SplitRuns {
  import opened Messages
  import opened IndexSets
  import opened EcloudServer
  import opened VehicleSim
  import opened Barrier
  import opened BarrierRuns
  import opened EdgeScript
  import opened EdgeRuns
  import opened SplitTick
  import SplitUpdate

  // ---- Every car sends its update ----

  /** The first `n` vehicles have their update on the way, each with a duration of its own; the others
      still wait for the tick. */
  predicate SendingUpTo(w: World, now: World, n: nat) {
    && Open(now) && now.server == w.server && now.orch == w.orch && now.replied == {}
    && |now.vehicles| == |w.vehicles| >= n
    && (forall v :: 0 <= v < n ==> now.vehicles[v].phase.Sending? && now.vehicles[v].phase.update.durationNs == v)
    && (forall v :: n <= v < |w.vehicles| ==> Due(now, v))
  }

  lemma MovedSends(w: World, now: World, w': World, n: nat, u: VehicleUpdate)
    requires SendingUpTo(w, now, n) && n < |w.vehicles| && Open(w') && Moved(now, w', n, Sending(u), [])
    requires u.durationNs == n
    ensures SendingUpTo(w, w', n + 1)
  {
    forall v | n + 1 <= v < |w.vehicles|
      ensures Due(w', v)
    {
      assert Due(now, v);
    }
  }

  lemma MovedTwice(now: World, w1: World, w2: World, n: nat, u: VehicleUpdate)
    requires Moved(now, w1, n, Running(TICK), []) && Moved(w1, w2, n, Sending(u), [])
    ensures Moved(now, w2, n, Sending(u), [])
  {
  }

  lemma SendOne(now: World, n: nat) returns (run: seq<Action>, w': World, u: VehicleUpdate)
    requires Open(now) && Due(now, n)
    ensures Reaches(now, run, w', []) && AllPrivate(run) && Open(w') && Moved(now, w', n, Sending(u), [])
    ensures u.durationNs == n
  {
    var head, w1 := ReadTick(now, n);
    w' := RunStep(w1, n, n);
    u := Reply(w1, n, n);
    Chained(now, head, w1, [], [Step(n, false, n)], w', []);
    PrivateChained(head, [Step(n, false, n)]);
    MovedTwice(now, w1, w', n, u);
    run := head + [Step(n, false, n)];
  }

  lemma SendNext(w: World, head: seq<Action>, now: World, n: nat) returns (run: seq<Action>, w': World)
    requires Reaches(w, head, now, []) && AllPrivate(head) && SendingUpTo(w, now, n) && n < |w.vehicles|
    ensures Reaches(w, run, w', []) && AllPrivate(run) && SendingUpTo(w, w', n + 1)
  {
    var tail, next, u := SendOne(now, n);
    Chained(w, head, now, [], tail, next, []);
    PrivateChained(head, tail);
    MovedSends(w, now, next, n, u);
    run, w' := head + tail, next;
  }

  lemma {:induction false} SendUpTo(w: World, n: nat) returns (run: seq<Action>, w': World)
    requires ServedUpTo(w, w, 0) && n <= |w.vehicles|
    ensures Reaches(w, run, w', []) && AllPrivate(run) && SendingUpTo(w, w', n)
  {
    if n == 0 {
      Nothing(w);
      run, w' := [], w;
    } else {
      var head, now := SendUpTo(w, n - 1);
      run, w' := SendNext(w, head, now, n - 1);
    }
  }

  // ---- The same in the split tick ----

  function Lifted(run: seq<Action>): (r: seq<Act>)
    ensures |r| == |run|
  {
    seq(|run|, i requires 0 <= i < |run| => Vehicular(run[i]))
  }

  lemma ActsNext(w: World, run: seq<Act>, act: Act)
    requires Opened(w) && LegalActs(w, run) && CanAct(w, AfterActs(w, run), act)
    ensures LegalActs(w, run + [act]) && AfterActs(w, run + [act]) == Acted(w, AfterActs(w, run), act)
  {
    assert (run + [act])[..|run|] == run;
  }

  /** The run ends with only vehicles and mail moved, to those of `a`. */
  predicate OnlyVehicles(w: World, run: seq<Act>, a: World)
    requires Opened(w)
  {
    && LegalActs(w, run) && AfterActs(w, run) == Opening(w).(vehicles := a.vehicles, mail := a.mail)
    && |a.vehicles| == |a.mail| == |w.vehicles| && a.server == w.server && a.control == w.control
  }

  lemma LiftNext(w: World, run: seq<Act>, a: World, p: Action)
    requires Opened(w) && OnlyVehicles(w, run, a) && Enabled(a, p) && Private(p)
    ensures OnlyVehicles(w, run + [Vehicular(p)], Apply(a, p))
  {
    PrivateTick(a, p);
    ActsNext(w, run, Vehicular(p));
  }

  lemma {:induction false} LiftRun(w: World, run: seq<Action>)
    requires Opened(w) && Legal(w, run) && AllPrivate(run)
    ensures OnlyVehicles(w, Lifted(run), After(w, run))
    decreases |run|
  {
    if run != [] {
      var front, p := run[..|run| - 1], run[|run| - 1];
      LiftRun(w, front);
      LiftNext(w, Lifted(front), After(w, front), p);
      assert Lifted(run) == Lifted(front) + [Vehicular(p)];
    }
  }

  // ---- The handlers' moves on those updates ----

  function Hands(moves: seq<SplitUpdate.Move>): (r: seq<Act>)
    ensures |r| == |moves|
  {
    seq(|moves|, i requires 0 <= i < |moves| => Handler(moves[i]))
  }

  /** The handlers are in state `s`, each sent its entry of `us` and served while its call is pending. */
  predicate Serving(w: World, x: Split, us: seq<VehicleUpdate>, s: SplitUpdate.State) {
    && SplitShaped(w, x) && x.handlers == s && |us| == |Awaiting(w)|
    && (forall h :: 0 <= h < |us| && s.pc[h] != SplitUpdate.Entered ==> x.updates[h] == us[h])
    && forall h :: 0 <= h < |us| && s.pc[h] != SplitUpdate.Left ==> x.vehicles[Awaiting(w)[h]].phase == Sending(us[h])
  }

  lemma ServingCan(w: World, x: Split, us: seq<VehicleUpdate>, s: SplitUpdate.State, m: SplitUpdate.Move)
    requires Opened(w) && CountedUpdates(w, Awaiting(w), us) && Serving(w, x, us, s) && SplitUpdate.CanMove(s, m)
    ensures us[m.h].vehicleIndex < MAX_CARS && CanAct(w, x, Handler(m))
    ensures x.vehicles[Awaiting(w)[m.h]].phase == Sending(us[m.h])
  {
    assert CountedUpdate(w, Awaiting(w)[m.h], us[m.h]);
  }

  lemma ServingNext(w: World, x: Split, us: seq<VehicleUpdate>, s: SplitUpdate.State, m: SplitUpdate.Move)
    requires Serving(w, x, us, s) && CanAct(w, x, Handler(m)) && us[m.h].vehicleIndex < MAX_CARS
    requires x.vehicles[Awaiting(w)[m.h]].phase == Sending(us[m.h])
    ensures Serving(w, Acted(w, x, Handler(m)), us, SplitUpdate.Next(s, us, m))
  {
    AwaitedAre(w, |w.vehicles|);
    var x', s' := Acted(w, x, Handler(m)), SplitUpdate.Next(s, us, m);
    forall h | 0 <= h < |us| && s'.pc[h] != SplitUpdate.Left
      ensures x'.vehicles[Awaiting(w)[h]].phase == Sending(us[h])
    {
      assert h != m.h ==> s'.pc[h] == s.pc[h] && Awaiting(w)[h] != Awaiting(w)[m.h];
    }
  }

  /** The run ends in such a state. */
  predicate ServingAfter(w: World, run: seq<Act>, us: seq<VehicleUpdate>, s: SplitUpdate.State)
    requires Opened(w)
  {
    LegalActs(w, run) && Serving(w, AfterActs(w, run), us, s)
  }

  lemma HandsNext(w: World, run: seq<Act>, us: seq<VehicleUpdate>, s: SplitUpdate.State, m: SplitUpdate.Move)
    requires Opened(w) && CountedUpdates(w, Awaiting(w), us)
    requires ServingAfter(w, run, us, s) && SplitUpdate.CanMove(s, m)
    ensures us[m.h].vehicleIndex < MAX_CARS
    ensures ServingAfter(w, run + [Handler(m)], us, SplitUpdate.Next(s, us, m))
  {
    ServingCan(w, AfterActs(w, run), us, s, m);
    ServingNext(w, AfterActs(w, run), us, s, m);
    ActsNext(w, run, Handler(m));
  }

  lemma LastMove(s: Server, us: seq<VehicleUpdate>, moves: seq<SplitUpdate.Move>)
    requires SplitUpdate.Tickful(s, us) && SplitUpdate.Legal(s, us, moves) && moves != []
    ensures var front, m := moves[..|moves| - 1], moves[|moves| - 1];
            && SplitUpdate.Legal(s, us, front) && SplitUpdate.CanMove(SplitUpdate.After(s, us, front), m)
            && SplitUpdate.After(s, us, moves) == SplitUpdate.Next(SplitUpdate.After(s, us, front), us, m)
            && Hands(moves) == Hands(front) + [Handler(m)]
  {
  }

  lemma {:induction false} HandsRun(w: World, run: seq<Act>, us: seq<VehicleUpdate>, moves: seq<SplitUpdate.Move>)
    requires Opened(w) && CountedUpdates(w, Awaiting(w), us)
    requires ServingAfter(w, run, us, SplitUpdate.Begin(w.server, us))
    requires SplitUpdate.Tickful(w.server, us) && SplitUpdate.Legal(w.server, us, moves)
    ensures ServingAfter(w, run + Hands(moves), us, SplitUpdate.After(w.server, us, moves))
    decreases |moves|
  {
    if moves == [] {
      assert run + Hands(moves) == run;
    } else {
      LastMove(w.server, us, moves);
      HandsRun(w, run, us, moves[..|moves| - 1]);
      HandsOn(w, run, us, moves);
    }
  }

  lemma HandsOn(w: World, run: seq<Act>, us: seq<VehicleUpdate>, moves: seq<SplitUpdate.Move>)
    requires Opened(w) && CountedUpdates(w, Awaiting(w), us) && moves != []
    requires SplitUpdate.Tickful(w.server, us) && SplitUpdate.Legal(w.server, us, moves)
    requires var front := moves[..|moves| - 1];
             && SplitUpdate.Legal(w.server, us, front)
             && ServingAfter(w, run + Hands(front), us, SplitUpdate.After(w.server, us, front))
    ensures ServingAfter(w, run + Hands(moves), us, SplitUpdate.After(w.server, us, moves))
  {
    var front, m := moves[..|moves| - 1], moves[|moves| - 1];
    LastMove(w.server, us, moves);
    HandsNext(w, run + Hands(front), us, SplitUpdate.After(w.server, us, front), m);
    assert run + Hands(moves) == run + Hands(front) + [Handler(m)];
  }

  // ---- Every handler pushes ----

  lemma FreshTickOpened(w: World)
    requires ServedUpTo(w, w, 0) && |w.vehicles| > 0
    ensures Opened(w) && |Awaiting(w)| == |w.vehicles|
  {
    AwaitedCount(w);
    assert 0 in All(|w.vehicles|) && w.replied + w.done == {};
  }

  /** The updates under way. */
  function UnderWay(w: World, a: World): (us: seq<VehicleUpdate>)
    requires |a.vehicles| == |w.vehicles| && forall v :: 0 <= v < |a.vehicles| ==> a.vehicles[v].phase.Sending?
    ensures |us| == |Awaiting(w)|
  {
    seq(|Awaiting(w)|, h requires 0 <= h < |Awaiting(w)| => a.vehicles[Awaiting(w)[h]].phase.update)
  }

  lemma UnderWayCounted(w: World, a: World)
    requires Opened(w) && SendingUpTo(w, a, |w.vehicles|) && a.control == w.control
    ensures CountedUpdates(w, Awaiting(w), UnderWay(w, a))
  {
    forall h | 0 <= h < |Awaiting(w)|
      ensures CountedUpdate(w, Awaiting(w)[h], UnderWay(w, a)[h])
    {
      SentIsCounted(w, a, Awaiting(w)[h]);
    }
  }

  lemma {:induction false} AllAwaited(w: World, n: nat)
    requires w.replied == w.done == {}
    ensures Awaited(w, n) == seq(n, i => i)
  {
    if n > 0 { AllAwaited(w, n - 1); }
  }

  /** All handlers push, for updates of as many durations. */
  predicate AllAnnounce(w: World, x: Split, n: nat) {
    && x.handlers.pushers == seq(n, i => i) && |x.updates| == n
    && forall h :: 0 <= h < n ==> x.updates[h].durationNs == h
  }

  /** From a tick just opened: all cars send, all handlers count, then all push. */
  lemma AllPush(w: World) returns (run: seq<Act>)
    requires ServedUpTo(w, w, 0) && |w.vehicles| > 0 && Opened(w)
    ensures LegalActs(w, run) && AllAnnounce(w, AfterActs(w, run), |w.vehicles|)
  {
    FreshTickOpened(w);
    AllAwaited(w, |w.vehicles|);
    var steps, a := SendUpTo(w, |w.vehicles|);
    LiftRun(w, steps);
    UnderWayCounted(w, a);
    run := CountThenPush(w, Lifted(steps), UnderWay(w, a));
  }

  lemma CountThenPush(w: World, sent: seq<Act>, us: seq<VehicleUpdate>) returns (run: seq<Act>)
    requires Opened(w) && CountedUpdates(w, Awaiting(w), us)
    requires ServingAfter(w, sent, us, SplitUpdate.Begin(w.server, us))
    requires forall h :: 0 <= h < |us| ==> us[h].durationNs == h
    ensures LegalActs(w, run) && AllAnnounce(w, AfterActs(w, run), |us|)
  {
    AwaitedFillTick(w, us);
    var moves := SplitUpdate.AllMayPush(w.server, us);
    PushersLeft(w.server, us, moves);
    HandsRun(w, sent, us, moves);
    run := sent + Hands(moves);
  }

  lemma PushersLeft(s: Server, us: seq<VehicleUpdate>, moves: seq<SplitUpdate.Move>)
    requires SplitUpdate.Tickful(s, us) && SplitUpdate.Legal(s, us, moves)
    requires SplitUpdate.After(s, us, moves).pushers == seq(|us|, i => i)
    ensures forall h :: 0 <= h < |us| ==> SplitUpdate.After(s, us, moves).pc[h] == SplitUpdate.Left
  {
    SplitUpdate.AfterInv(s, us, moves);
    var x := SplitUpdate.After(s, us, moves);
    forall h | 0 <= h < |us|
      ensures x.pc[h] == SplitUpdate.Left
    {
      assert x.pushers[h] == h;
    }
  }

  /** With two cars or more, the orchestrator then gets to see several completions of that tick. */
  lemma SeenAgain(w: World, run: seq<Act>)
    requires Opened(w) && LegalActs(w, run) && AllAnnounce(w, AfterActs(w, run), |Awaiting(w)|) && |Awaiting(w)| >= 2
    ensures var x := AfterActs(w, run);
            && AllLeft(x)
            && |SplitUpdate.Seen(w.orch.push, SplitUpdate.PushesOf(x.updates, w.server.command,
                                                                   x.handlers.pushers))| > 1
  {
    SplitRun(w, run);
    SeesSeveral(w, AfterActs(w, run), Moves(run));
  }

  lemma SeesSeveral(w: World, x: Split, moves: seq<SplitUpdate.Move>)
    requires Opened(w) && CountedUpdates(w, Awaiting(w), x.updates) && Following(w, x, moves)
    requires AllAnnounce(w, x, |Awaiting(w)|) && |Awaiting(w)| >= 2
    ensures AllLeft(x)
    ensures |SplitUpdate.Seen(w.orch.push, SplitUpdate.PushesOf(x.updates, w.server.command, x.handlers.pushers))| > 1
  {
    AwaitedFillTick(w, x.updates);
    PushersLeft(w.server, x.updates, moves);
    FollowersAnnounce(w, x, moves);
    assert x.handlers.pushers[0] == 0 && x.handlers.pushers[1] == 1;
    SplitUpdate.PushesIffLoadedLast(w.server, x.updates, moves, 0);
    SplitUpdate.PushesIffLoadedLast(w.server, x.updates, moves, 1);
    assert x.updates[0].durationNs != x.updates[1].durationNs;
  }

  lemma TickOpens(w: World, head: seq<Action>, w1: World, orders: seq<Order>, k: nat)
      returns (run: seq<Action>, w': World)
    requires k >= 2 && Reaches(w, head, w1, orders) && Resting(w1)
    ensures Reaches(w, run, w', orders + OrdersAt(w1.orch.tickId + 1, k))
    ensures ServedUpTo(w', w', 0) && w'.orch.tickId == w1.orch.tickId + 1 && |w'.vehicles| == |w1.vehicles|
  {
    var start, next := StartTick(w1, k);
    Chained(w, head, w1, orders, start, next, OrdersAt(w1.orch.tickId + 1, k));
    run, w' := head + start, next;
  }

  /** For every number of cars, ticks and edge period above one, some run of the barrier leads to a tick that
      every one of its handlers announces, and with two cars or more the orchestrator sees it several times. */
  lemma AllPushReached(c: nat, t: nat, k: nat) returns (before: seq<Action>, run: seq<Act>)
    requires 0 < c <= MAX_CARS && k >= 2
    ensures Legal(Start(c, true, false), before)
    ensures var w := After(Start(c, true, false), before);
            && Opened(w) && w.orch.tickId == t + 1 && LegalActs(w, run)
            && var x := AfterActs(w, run);
               && AllAnnounce(w, x, c)
               && (c >= 2 ==> |SplitUpdate.Seen(w.orch.push, SplitUpdate.PushesOf(x.updates, w.server.command,
                                                                                  x.handlers.pushers))| > 1)
  {
    var ticks, w1 := TicksFromStart(c, t, k);
    var head, w := TickOpens(Start(c, true, false), ticks, w1, Schedule(t, k), k);
    FreshTickOpened(w);
    before := head;
    run := AllPush(w);
    if c >= 2 {
      SeenAgain(w, run);
    }
  }
}
