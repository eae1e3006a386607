/** What breaks single flight: a deletion that comes too late, and a lease that runs out. */
module SearchFlightLimits {
  import opened Basics
  import opened SearchFlight
  import opened SearchFlightTheorems

  /** A calm run from one world to another. */
  ghost predicate Runs(w: World, es: seq<Event>, v: World, t: Timing) { CalmRun(w, es, t) && Final(w, es, t) == v }

  lemma {:induction false} RunsOn(w: World, es: seq<Event>, v: World, e: Event, u: World, t: Timing)
    requires Runs(w, es, v, t) && AnsweredEvent(e) && Next(v, e, t) == Some(u) && Unexpired(u)
    ensures Runs(w, es + [e], u, t)
    decreases |es|
  {
    hide Unexpired, Next;
    if es == [] {
      var one := [e];
      assert one[1..] == [] && es + [e] == one;
      assert CalmRun(u, one[1..], t) && Final(u, one[1..], t) == u;
      assert CalmRun(w, one, t) && Final(w, one, t) == Final(u, one[1..], t);
    } else {
      var next := Next(w, es[0], t).value;
      RunsOn(next, es[1..], v, e, u, t);
      assert (es + [e])[1..] == es[1..] + [e];
    }
  }

  lemma RunsNowhere(w: World, t: Timing)
    requires Unexpired(w)
    ensures Runs(w, [], w, t)
  {}

  predicate Unreadable(w: World, id: Identity) { id in w.entries && w.entries[id].payload.Unreadable? }

  // ---- A deletion that comes too late

  function LateDeletion(c: Caller): seq<Event> { [Discard(c, Answered), TryAcquire(c, Answered), Recheck(c, Answered)] }

  /** A caller that found the entry unreadable before somebody else replaced it deletes the new entry, and with the
      lease free goes to the provider, although a result was stored. */
  lemma LateDeletionAllowsSecondCall(w: World, t: Timing, c: Caller, id: Identity) returns (v: World)
    requires Unexpired(w) && t.leaseMs >= 1 && c in w.tasks && w.tasks[c].id == id && id !in w.leases
    requires w.tasks[c].phase.Discarding? && w.tasks[c].phase.next.Acquiring?
    ensures Runs(w, LateDeletion(c), v, t) && id !in v.entries && c in v.tasks && v.tasks[c].phase.Executing?
  {
    var token := w.tasks[c].phase.next.token;
    var held := Holder(token, w.now + t.leaseMs);
    var w1 := Move(w.(entries := w.entries - {id}), c, Acquiring(token));
    var w2 := Move(w1.(leases := w1.leases[id := Lease(token, w.now + t.leaseMs)]), c, Rechecking(held));
    v := Move(w2, c, Executing(held));
    RunsNowhere(w, t);
    assert Unexpired(w1) && Unexpired(w2) && Unexpired(v);
    hide Unexpired;
    RunsOn(w, [], w, Discard(c, Answered), w1, t);
    RunsOn(w, [] + [Discard(c, Answered)], w1, TryAcquire(c, Answered), w2, t);
    RunsOn(w, [] + [Discard(c, Answered)] + [TryAcquire(c, Answered)], w2, Recheck(c, Answered), v, t);
    assert [] + [Discard(c, Answered)] + [TryAcquire(c, Answered)] + [Recheck(c, Answered)] == LateDeletion(c);
  }

  /** Two callers of one identity and nobody else. */
  function Pair(w: World, id: Identity, leases: Leases, entries: Entries, first: Phase, second: Phase): World {
    World(w.now, leases, entries, map[0 := Task(id, first), 1 := Task(id, second)], map[0 := 0, 1 := 1])
  }

  /** The first caller has found the entry unreadable, and is slow. */
  const SLOW := Discarding(Acquiring(0))

  function Mine(w: World, t: Timing): Held { Holder(1, w.now + t.leaseMs) }

  function Locked(w: World, t: Timing, id: Identity): Leases { w.leases[id := Lease(1, w.now + t.leaseMs)] }

  function Filled(w: World, t: Timing, id: Identity, data: string): Entries {
    w.entries[id := Entry(Readable(data), w.now + t.ttl)]
  }

  /** Where the second caller's success leaves the two. */
  function Stored(w: World, t: Timing, id: Identity, data: string): World {
    Pair(w, id, w.leases, Filled(w, t, id, data), SLOW, Done(Fetched(data, true)))
  }

  /** An initial world with an unreadable entry under an identity whose lease is free. */
  ghost predicate Troubled(w: World, t: Timing, id: Identity) {
    Initial(w) && Unexpired(w) && Unreadable(w, id) && id !in w.leases && t.leaseMs >= 1 && t.ttl >= 1
  }

  lemma PairUnexpired(w: World, t: Timing, id: Identity, data: string, first: Phase, second: Phase)
    requires Troubled(w, t, id)
    ensures Unexpired(Pair(w, id, w.leases, w.entries, first, second))
    ensures Unexpired(Pair(w, id, w.leases, w.entries - {id}, first, second))
    ensures Unexpired(Pair(w, id, Locked(w, t, id), w.entries - {id}, first, second))
    ensures Unexpired(Pair(w, id, Locked(w, t, id), Filled(w, t, id, data), first, second))
    ensures Unexpired(Pair(w, id, w.leases, Filled(w, t, id, data), first, second))
  {}

  /** Both callers arrive and find the entry unreadable. */
  lemma BothArrive(w: World, t: Timing, id: Identity) returns (es: seq<Event>)
    requires Troubled(w, t, id)
    ensures Runs(w, es, Pair(w, id, w.leases, w.entries, SLOW, Discarding(Acquiring(1))), t)
  {
    var w1 := w.(tasks := map[0 := Task(id, LookingUp)]);
    var w2 := w.(tasks := map[0 := Task(id, LookingUp), 1 := Task(id, LookingUp)]);
    var w3 := w.(tasks := map[0 := Task(id, SLOW), 1 := Task(id, LookingUp)], drawn := map[0 := 0]);
    var w4 := Pair(w, id, w.leases, w.entries, SLOW, Discarding(Acquiring(1)));
    assert Get(w.entries, id, w.now) == Corrupt;
    assert Unexpired(w1) && Unexpired(w2) && Unexpired(w3) && Unexpired(w4);
    RunsNowhere(w, t);
    hide Unexpired, Get;
    assert w.tasks[0 := Task(id, LookingUp)] == w1.tasks && w1.tasks[1 := Task(id, LookingUp)] == w2.tasks;
    assert w2.tasks[0 := Task(id, SLOW)] == w3.tasks && w2.drawn[0 := 0] == w3.drawn;
    assert w3.tasks[1 := Task(id, Discarding(Acquiring(1)))] == w4.tasks && w3.drawn[1 := 1] == w4.drawn;
    es := [];
    RunsOn(w, es, w, Start(0, id), w1, t);
    es := es + [Start(0, id)];
    RunsOn(w, es, w1, Start(1, id), w2, t);
    es := es + [Start(1, id)];
    RunsOn(w, es, w2, LookUp(0, Answered, 0), w3, t);
    es := es + [LookUp(0, Answered, 0)];
    RunsOn(w, es, w3, LookUp(1, Answered, 1), w4, t);
    es := es + [LookUp(1, Answered, 1)];
  }

  /** The second caller moves; the first one waits. */
  lemma SecondMoves(w: World, id: Identity, leases: Leases, entries: Entries, p: Phase, q: Phase)
    ensures Move(Pair(w, id, leases, entries, SLOW, p), 1, q) == Pair(w, id, leases, entries, SLOW, q)
  {
    assert map[0 := Task(id, SLOW), 1 := Task(id, p)][1 := Task(id, q)] == map[0 := Task(id, SLOW), 1 := Task(id, q)];
  }

  lemma SecondExecutesSteps(w: World, t: Timing, id: Identity)
    requires Troubled(w, t, id)
    ensures var gone, held, leases := w.entries - {id}, Mine(w, t), Locked(w, t, id);
            && Next(Pair(w, id, w.leases, w.entries, SLOW, Discarding(Acquiring(1))), Discard(1, Answered), t)
               == Some(Pair(w, id, w.leases, gone, SLOW, Acquiring(1)))
            && Next(Pair(w, id, w.leases, gone, SLOW, Acquiring(1)), TryAcquire(1, Answered), t)
               == Some(Pair(w, id, leases, gone, SLOW, Rechecking(held)))
            && Next(Pair(w, id, leases, gone, SLOW, Rechecking(held)), Recheck(1, Answered), t)
               == Some(Pair(w, id, leases, gone, SLOW, Executing(held)))
  {
    var gone, held := w.entries - {id}, Mine(w, t);
    SecondMoves(w, id, w.leases, gone, Discarding(Acquiring(1)), Acquiring(1));
    SecondMoves(w, id, Locked(w, t, id), gone, Acquiring(1), Rechecking(held));
    SecondMoves(w, id, Locked(w, t, id), gone, Rechecking(held), Executing(held));
    hide Unexpired, Move;
  }

  /** The second caller deletes the entry, takes the lease and goes to the provider. */
  lemma SecondExecutes(w: World, t: Timing, id: Identity) returns (es: seq<Event>)
    requires Troubled(w, t, id)
    ensures Runs(w, es, Pair(w, id, Locked(w, t, id), w.entries - {id}, SLOW, Executing(Mine(w, t))), t)
  {
    es := BothArrive(w, t, id);
    var gone, held := w.entries - {id}, Mine(w, t);
    var w0 := Pair(w, id, w.leases, w.entries, SLOW, Discarding(Acquiring(1)));
    var w1 := Pair(w, id, w.leases, gone, SLOW, Acquiring(1));
    var w2 := Pair(w, id, Locked(w, t, id), gone, SLOW, Rechecking(held));
    var w3 := Pair(w, id, Locked(w, t, id), gone, SLOW, Executing(held));
    PairUnexpired(w, t, id, "", SLOW, Acquiring(1));
    PairUnexpired(w, t, id, "", SLOW, Rechecking(held));
    PairUnexpired(w, t, id, "", SLOW, Executing(held));
    SecondExecutesSteps(w, t, id);
    hide Unexpired, Runs, Next, Pair, Troubled;
    RunsOn(w, es, w0, Discard(1, Answered), w1, t);
    es := es + [Discard(1, Answered)];
    RunsOn(w, es, w1, TryAcquire(1, Answered), w2, t);
    es := es + [TryAcquire(1, Answered)];
    RunsOn(w, es, w2, Recheck(1, Answered), w3, t);
    es := es + [Recheck(1, Answered)];
  }

  lemma SecondSucceedsSteps(w: World, t: Timing, id: Identity, data: string)
    requires Troubled(w, t, id)
    ensures var gone, full, held, leases := w.entries - {id}, Filled(w, t, id, data), Mine(w, t), Locked(w, t, id);
            var o := Fetched(data, true);
            && Next(Pair(w, id, leases, gone, SLOW, Executing(held)), ProviderReturns(1, data), t)
               == Some(Pair(w, id, leases, gone, SLOW, Storing(held, data)))
            && Next(Pair(w, id, leases, gone, SLOW, Storing(held, data)), Store(1, Answered), t)
               == Some(Pair(w, id, leases, full, SLOW, Releasing(held, o)))
  {
    var gone, full, held, leases := w.entries - {id}, Filled(w, t, id, data), Mine(w, t), Locked(w, t, id);
    var o := Fetched(data, true);
    SecondMoves(w, id, leases, gone, Executing(held), Storing(held, data));
    SecondMoves(w, id, leases, full, Storing(held, data), Releasing(held, o));
    assert gone[id := Entry(Readable(data), w.now + t.ttl)] == full;
    hide Unexpired, Move;
  }

  lemma SecondReleasesStep(w: World, t: Timing, id: Identity, data: string)
    requires Troubled(w, t, id)
    ensures var p := Releasing(Mine(w, t), Fetched(data, true));
            Next(Pair(w, id, Locked(w, t, id), Filled(w, t, id, data), SLOW, p), Release(1, Answered), t)
            == Some(Stored(w, t, id, data))
  {
    var o := Fetched(data, true);
    SecondMoves(w, id, w.leases, Filled(w, t, id, data), Releasing(Mine(w, t), o), Done(o));
    assert Locked(w, t, id) - {id} == w.leases;
    hide Unexpired, Move;
  }

  /** The second caller's provider call succeeds; it stores the result and releases the lease. */
  lemma SecondSucceeds(w: World, t: Timing, id: Identity, data: string) returns (es: seq<Event>)
    requires Troubled(w, t, id)
    ensures Runs(w, es, Stored(w, t, id, data), t)
  {
    es := SecondExecutes(w, t, id);
    var gone, full, held, leases := w.entries - {id}, Filled(w, t, id, data), Mine(w, t), Locked(w, t, id);
    var o := Fetched(data, true);
    var w0 := Pair(w, id, leases, gone, SLOW, Executing(held));
    var w1 := Pair(w, id, leases, gone, SLOW, Storing(held, data));
    var w2 := Pair(w, id, leases, full, SLOW, Releasing(held, o));
    PairUnexpired(w, t, id, data, SLOW, Storing(held, data));
    PairUnexpired(w, t, id, data, SLOW, Releasing(held, o));
    PairUnexpired(w, t, id, data, SLOW, Done(o));
    SecondSucceedsSteps(w, t, id, data);
    SecondReleasesStep(w, t, id, data);
    hide Unexpired, Runs, Next, Pair, Troubled;
    RunsOn(w, es, w0, ProviderReturns(1, data), w1, t);
    es := es + [ProviderReturns(1, data)];
    RunsOn(w, es, w1, Store(1, Answered), w2, t);
    es := es + [Store(1, Answered)];
    RunsOn(w, es, w2, Release(1, Answered), Stored(w, t, id, data), t);
    es := es + [Release(1, Answered)];
  }

  /** With an unreadable entry at the start a calm run exists in which a second provider call follows a stored
      success: every command answered, nothing expired, the put stored. */
  lemma UnreadableEntryAllowsSecondCall(w: World, t: Timing, id: Identity, data: string)
    returns (es: seq<Event>, v: World)
    requires Troubled(w, t, id)
    ensures var start := Stored(w, t, id, data);
            && Runs(w, es, start, t) && CachedAt(start, id) && start.tasks[1].phase == Done(Fetched(data, true))
            && Runs(start, LateDeletion(0), v, t) && !Served(start, v, id)
            && 0 in v.tasks && v.tasks[0].id == id && v.tasks[0].phase.Executing?
  {
    es := SecondSucceeds(w, t, id, data);
    var start := Stored(w, t, id, data);
    PairUnexpired(w, t, id, data, SLOW, Done(Fetched(data, true)));
    v := LateDeletionAllowsSecondCall(start, t, 0, id);
  }

  // ---- From the start: when a stored success serves all

  /** No unreadable entry under this identity, and nobody who found one. */
  ghost predicate Clean(w: World, id: Identity) { !Unreadable(w, id) && NobodyDiscards(w, id) }

  lemma ActKeepsReadable(w: World, e: Event, t: Timing, id: Identity)
    requires !Unreadable(w, id) && !e.Start? && !e.Tick? && e.c in w.tasks && Act(w, e, t).Some?
    ensures !Unreadable(Act(w, e, t).value, id)
  {
    hide SetNx, ReleaseIfOwner, HeldBy, TokenOf, Seen, Checked, Leave;
  }

  lemma ReadableIsNotCorrupt(w: World, c: Caller, reply: Reply)
    requires c in w.tasks && !Unreadable(w, w.tasks[c].id)
    ensures Seen(w, c, reply) != Corrupt
  {}

  /** A caller that finds nothing unreadable has nothing to delete. */
  lemma ActDoesNotDiscard(w: World, e: Event, t: Timing)
    requires !e.Start? && !e.Tick? && e.c in w.tasks && Act(w, e, t).Some?
    requires !Unreadable(w, w.tasks[e.c].id) && !w.tasks[e.c].phase.Discarding?
    ensures e.c in Act(w, e, t).value.tasks && !Act(w, e, t).value.tasks[e.c].phase.Discarding?
  {
    hide SetNx, ReleaseIfOwner, HeldBy, TokenOf, Seen, Unreadable;
    if e.LookUp? || e.Recheck? { ReadableIsNotCorrupt(w, e.c, e.reply); }
  }

  lemma ActMovesOne(w: World, e: Event, t: Timing)
    requires !e.Start? && !e.Tick? && e.c in w.tasks && Act(w, e, t).Some?
    ensures var v := Act(w, e, t).value;
            forall d :: d in v.tasks && d != e.c ==> d in w.tasks && v.tasks[d] == w.tasks[d]
  {
    hide SetNx, ReleaseIfOwner, HeldBy, TokenOf, Seen, Checked, Leave;
  }

  lemma CleanAct(w: World, e: Event, t: Timing, id: Identity)
    requires Clean(w, id) && !e.Start? && !e.Tick? && e.c in w.tasks && Act(w, e, t).Some?
    ensures Clean(Act(w, e, t).value, id)
  {
    hide Act, Unreadable;
    ActKeepsReadable(w, e, t, id);
    ActMovesOne(w, e, t);
    ActStaysFinished(w, e, t);
    if w.tasks[e.c].id == id { ActDoesNotDiscard(w, e, t); }
  }

  lemma {:induction false} CleanRun(w: World, events: seq<Event>, t: Timing, id: Identity)
    requires Clean(w, id) && CalmRun(w, events, t)
    ensures Clean(Final(w, events, t), id)
    decreases |events|
  {
    hide Act, Unexpired;
    if events != [] {
      var e := events[0];
      if !e.Start? && !e.Tick? { CleanAct(w, e, t, id); }
      assert Clean(Next(w, e, t).value, id);
      hide Clean;
      CleanRun(Next(w, e, t).value, events[1..], t, id);
    }
  }

  /** The lease was taken by somebody who is gone; nobody here gets it, and the entry is at most deleted. */
  ghost predicate Shut(first: World, w: World, id: Identity) {
    && id in w.leases && (forall c :: c in w.tasks && w.tasks[c].id == id ==> !Holds(w, c))
    && (id in w.entries ==> id in first.entries && w.entries[id] == first.entries[id])
  }

  lemma ActGainsNoLease(w: World, e: Event, t: Timing)
    requires Calm(w) && !e.Start? && !e.Tick? && e.c in w.tasks && Act(w, e, t).Some?
    requires !Holds(w, e.c) && Taken(w.leases, w.tasks[e.c].id, w.now)
    ensures !Holds(Act(w, e, t).value, e.c)
  {
    hide SetNx, ReleaseIfOwner, Unexpired, Get, Seen;
    assert Orderly(w, e.c);
    if e.Recheck? {
      var held := w.tasks[e.c].phase.held;
      var miss := if held.Waited? then Done(WaitExhausted) else Executing(held);
      assert HeldBy(Discarding(miss)) == HeldBy(miss);
    } else if e.LookUp? {
      assert HeldBy(Discarding(Acquiring(e.token))) == HeldBy(Acquiring(e.token)) == None;
    }
  }

  lemma ShutStep(first: World, w: World, e: Event, t: Timing, id: Identity)
    requires Calm(w) && Shut(first, w, id) && AnsweredEvent(e) && Next(w, e, t).Some?
    ensures Shut(first, Next(w, e, t).value, id)
  {
    hide Act, Orderly;
    if !e.Start? && !e.Tick? {
      CalmAct(w, e, t);
      ActStaysFinished(w, e, t);
      if w.tasks[e.c].id == id { ActGainsNoLease(w, e, t); }
    }
  }

  lemma {:induction false} ShutRun(first: World, w: World, events: seq<Event>, t: Timing, id: Identity)
    requires Calm(w) && Shut(first, w, id) && CalmRun(w, events, t)
    ensures Shut(first, Final(w, events, t), id)
    decreases |events|
  {
    hide Calm, Next, Unexpired, Shut;
    if events != [] {
      var v := Next(w, events[0], t).value;
      assert Unexpired(v) by { assert CalmRun(v, events[1..], t); }
      CalmStep(w, events[0], t);
      ShutStep(first, w, events[0], t, id);
      ShutRun(first, v, events[1..], t, id);
    }
  }

  /** In every calm run from this world, every stored success serves all later callers. */
  ghost predicate AlwaysServed(w: World, t: Timing, id: Identity) {
    forall events, more :: CalmRun(w, events, t) && CachedAt(Final(w, events, t), id)
                           && CalmRun(Final(w, events, t), more, t) ==>
      Served(Final(w, events, t), Final(Final(w, events, t), more, t), id)
  }

  /** The exact condition at the start: no unreadable entry under the identity, or a lease left behind by somebody
      else, so that nobody gets to the provider at all. */
  lemma StoredSuccessServesAllFromTheStart(w: World, t: Timing, id: Identity)
    requires Initial(w) && Unexpired(w) && t.leaseMs >= 1 && t.ttl >= 1
    ensures AlwaysServed(w, t, id) <==> (Unreadable(w, id) ==> id in w.leases)
  {
    hide Unexpired, Served, Orderly;
    if Unreadable(w, id) && id !in w.leases {
      var es, v := UnreadableEntryAllowsSecondCall(w, t, id, "");
    } else {
      forall events, more | CalmRun(w, events, t) && CachedAt(Final(w, events, t), id)
                            && CalmRun(Final(w, events, t), more, t)
        ensures Served(Final(w, events, t), Final(Final(w, events, t), more, t), id)
      {
        if Unreadable(w, id) {
          InitialIsCalm(w);
          assert Shut(w, w, id);
          ShutRun(w, w, events, t, id);
          assert false;
        } else {
          assert Clean(w, id);
          CleanRun(w, events, t, id);
          OneStoredSuccessServesAll(w, events, t, id);
        }
      }
    }
  }

  // ---- A lease that runs out

  /** The four events that take a new caller to the provider. */
  function Arrival(d: Caller, id: Identity, token: Token): seq<Event> {
    [Start(d, id), LookUp(d, Answered, token), TryAcquire(d, Answered), Recheck(d, Answered)]
  }

  lemma AfterOn(w: World, es: seq<Event>, v: World, e: Event, t: Timing)
    requires After(w, es, t) == Some(v)
    ensures After(w, es + [e], t) == Next(v, e, t)
  {
    assert (es + [e])[..|es|] == es;
  }

  /** Once the lease of a caller still at the provider has run out and nothing is cached, the next caller joins it
      there: with an expired lease, two calls for one identity run side by side. */
  lemma ExpiredLeaseAllowsSecondCall(w: World, t: Timing, c: Caller, d: Caller, id: Identity, token: Token)
    requires c in w.tasks && w.tasks[c].id == id && w.tasks[c].phase.Executing? && d !in w.tasks && token !in w.drawn
    requires !Taken(w.leases, id, w.now) && Get(w.entries, id, w.now) == Miss
    ensures var v := After(w, Arrival(d, id, token), t);
            && v.Some? && c != d && v.value.tasks.Keys == w.tasks.Keys + {d}
            && v.value.tasks[c] == w.tasks[c] && v.value.tasks[d].id == id && v.value.tasks[d].phase.Executing?
  {
    hide Get, After;
    var held := Holder(token, w.now + t.leaseMs);
    var w1 := w.(tasks := w.tasks[d := Task(id, LookingUp)]);
    var w2 := Move(w1.(drawn := w.drawn[token := d]), d, Acquiring(token));
    var w3 := Move(w2.(leases := SetNx(w.leases, id, token, w.now, t.leaseMs)), d, Rechecking(held));
    var es: seq<Event> := [];
    assert After(w, es, t) == Some(w) by { AfterNothing(w, t); }
    AfterOn(w, es, w, Start(d, id), t);
    AfterOn(w, es + [Start(d, id)], w1, LookUp(d, Answered, token), t);
    AfterOn(w, es + [Start(d, id)] + [LookUp(d, Answered, token)], w2, TryAcquire(d, Answered), t);
    var three := es + [Start(d, id)] + [LookUp(d, Answered, token)] + [TryAcquire(d, Answered)];
    AfterOn(w, three, w3, Recheck(d, Answered), t);
    assert three + [Recheck(d, Answered)] == Arrival(d, id, token);
  }

  lemma AfterNothing(w: World, t: Timing)
    ensures After(w, [], t) == Some(w)
  {}
}
