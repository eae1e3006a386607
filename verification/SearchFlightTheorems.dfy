/** What single flight is for: while Redis answers and nothing expires, one provider call serves every caller. */
module SearchFlightTheorems {
  import opened Basics
  import opened SearchFlight

  /** Redis answers; deadlines, cancellations and crashes of callers are still allowed. */
  predicate AnsweredEvent(e: Event) {
    match e
    case LookUp(_, r, _) => r == Answered
    case Discard(_, r) => r == Answered
    case TryAcquire(_, r) => r == Answered
    case Recheck(_, r) => r == Answered
    case Store(_, r) => r == Answered
    case Release(_, r) => r == Answered
    case _ => true
  }

  ghost predicate Unexpired(w: World) {
    && (forall id :: id in w.leases ==> w.now <= w.leases[id].until)
    && (forall id :: id in w.entries ==> w.now <= w.entries[id].until)
  }

  /** Every world of the run is unexpired and every event answered. */
  ghost predicate CalmRun(w: World, events: seq<Event>, t: Timing)
    decreases |events|
  {
    && Unexpired(w)
    && (events != [] ==>
          && AnsweredEvent(events[0]) && Next(w, events[0], t).Some?
          && CalmRun(Next(w, events[0], t).value, events[1..], t))
  }

  function Final(w: World, events: seq<Event>, t: Timing): (v: World)
    requires CalmRun(w, events, t)
    decreases |events|
  {
    if events == [] then w else Final(Next(w, events[0], t).value, events[1..], t)
  }

  predicate Working(p: Phase) { p.Executing? || p.Storing? }

  predicate CachedAt(w: World, id: Identity) { id in w.entries && w.entries[id].payload.Readable? }

  /** The phases a caller can be in: at work it holds the lease of its identity, which is not in the cache. */
  ghost predicate Fits(w: World, id: Identity, p: Phase) {
    && HeldBy(p) != Some(Degraded) && (p.Releasing? ==> p.held.Holder?)
    && (Working(p) ==> p.held.Holder? && id !in w.entries)
    && (p.Discarding? ==> Deferred(w, id, p.next))
  }

  /** What may follow the deletion of an unreadable entry. */
  predicate Deferred(w: World, id: Identity, next: Phase) {
    || next.Acquiring? || next == Done(WaitExhausted)
    || (next.Executing? && next.held.Holder? && !CachedAt(w, id))
  }

  /** A caller's tokens are its own, and the key of a holder is in Redis. */
  ghost predicate Orderly(w: World, c: Caller)
    requires c in w.tasks
  {
    var p, id := w.tasks[c].phase, w.tasks[c].id;
    && Fits(w, id, p)
    && (TokenOf(p).Some? ==> TokenOf(p).value in w.drawn && w.drawn[TokenOf(p).value] == c)
    && (Holds(w, c) ==> id in w.leases && w.leases[id] == Lease(HolderOf(w, c).token, HolderOf(w, c).until))
  }

  ghost predicate Calm(w: World) { Unexpired(w) && forall c :: c in w.tasks ==> Orderly(w, c) }

  /** Two callers that own the lease of one identity are the same. */
  lemma OneOwner(w: World, c: Caller, d: Caller)
    requires Calm(w) && Holds(w, c) && Holds(w, d) && w.tasks[c].id == w.tasks[d].id
    ensures c == d
  {
    assert Orderly(w, c) && Orderly(w, d);
  }

  /** What one calm event does to everybody else. */
  ghost predicate Beside(w: World, v: World, c: Caller) {
    && v.tasks.Keys == w.tasks.Keys + {c}
    && (forall d :: d in w.tasks && d != c ==> v.tasks[d] == w.tasks[d])
    && (forall k :: k in w.drawn ==> k in v.drawn && v.drawn[k] == w.drawn[k])
    && (forall id :: id in w.leases ==>
          (id in v.leases && v.leases[id] == w.leases[id]) || (Holds(w, c) && w.tasks[c].id == id))
    && (forall id :: id in v.entries && (id !in w.entries || v.entries[id] != w.entries[id]) ==>
          Holds(w, c) && w.tasks[c].id == id)
  }

  /** A caller that moves on without a Redis effect, and gains no lease. */
  lemma CalmMove(w: World, c: Caller, p: Phase)
    requires Calm(w) && c in w.tasks && Shrinks(w.tasks[c].phase, p) && Fits(w, w.tasks[c].id, p)
    ensures c in Move(w, c, p).tasks && Orderly(Move(w, c, p), c) && Beside(w, Move(w, c, p), c)
  {
    hide HeldBy, TokenOf, Unexpired, Working;
    assert Orderly(w, c);
  }

  /** One event keeps its own caller orderly and leaves the others alone. */
  ghost predicate ActsCalmly(w: World, v: World, c: Caller) {
    c in v.tasks && (Unexpired(v) ==> Orderly(v, c)) && Beside(w, v, c)
  }

  lemma CalmAct(w: World, e: Event, t: Timing)
    requires Calm(w) && AnsweredEvent(e) && !e.Start? && !e.Tick? && e.c in w.tasks && Act(w, e, t).Some?
    ensures ActsCalmly(w, Act(w, e, t).value, e.c)
  {
    hide Calm, ActsCalmly, Act;
    match e
    case LookUp(_, _, _) => CalmLookUp(w, e, t);
    case TryAcquire(_, _) => CalmAcquire(w, e, t);
    case Abandon(_, _) => CalmAbandon(w, e, t);
    case Recheck(_, _) => CalmRecheck(w, e, t);
    case Store(_, _) => CalmStore(w, e, t);
    case Release(_, _) => CalmRelease(w, e, t);
    case Discard(_, _) => CalmDiscard(w, e, t);
    case Stop(_) => CalmStop(w, e, t);
    case _ => CalmOther(w, e, t);
  }

  lemma CalmLookUp(w: World, e: Event, t: Timing)
    requires Calm(w) && e.LookUp? && e.reply == Answered && e.c in w.tasks && Act(w, e, t).Some?
    ensures ActsCalmly(w, Act(w, e, t).value, e.c)
  {
    hide Seen, Unexpired;
    var c, q := e.c, Acquiring(e.token);
    assert TokenOf(Discarding(q)) == TokenOf(q) == Some(e.token) && HeldBy(Discarding(q)) == HeldBy(q) == None;
    match Seen(w, c, e.reply)
    case Hit(d) => CalmMove(w, c, Done(Cached(d)));
    case _ => DrawnMove(w, c, e.token, if Seen(w, c, e.reply).Corrupt? then Discarding(q) else q);
  }

  lemma DrawnMove(w: World, c: Caller, token: Token, p: Phase)
    requires Calm(w) && c in w.tasks && token !in w.drawn
    requires HeldBy(p) == None && TokenOf(p) == Some(token)
    requires p == Acquiring(token) || p == Discarding(Acquiring(token))
    ensures ActsCalmly(w, Move(w.(drawn := w.drawn[token := c]), c, p), c)
  {
    hide HeldBy, TokenOf, Calm, Unexpired, Beside;
    DrawnBeside(w, c, token, p);
  }

  lemma DrawnBeside(w: World, c: Caller, token: Token, p: Phase)
    requires c in w.tasks && token !in w.drawn
    ensures Beside(w, Move(w.(drawn := w.drawn[token := c]), c, p), c)
  {
    hide HeldBy, TokenOf;
  }

  lemma CalmAcquire(w: World, e: Event, t: Timing)
    requires Calm(w) && e.TryAcquire? && e.reply == Answered && e.c in w.tasks && Act(w, e, t).Some?
    ensures ActsCalmly(w, Act(w, e, t).value, e.c)
  {
    hide ReleaseIfOwner;
    assert Orderly(w, e.c);
  }

  lemma CalmAbandon(w: World, e: Event, t: Timing)
    requires Calm(w) && e.Abandon? && e.c in w.tasks && Act(w, e, t).Some?
    ensures ActsCalmly(w, Act(w, e, t).value, e.c)
  {
    hide ReleaseIfOwner;
    assert Orderly(w, e.c);
  }

  lemma CalmRecheck(w: World, e: Event, t: Timing)
    requires Calm(w) && e.Recheck? && e.reply == Answered && e.c in w.tasks && Act(w, e, t).Some?
    ensures ActsCalmly(w, Act(w, e, t).value, e.c)
  {
    hide ActsCalmly, Move, Orderly, Beside;
    var c, held := e.c, w.tasks[e.c].phase.held;
    assert Orderly(w, c);
    assert Fits(w, w.tasks[c].id, w.tasks[c].phase) by { OrderlyFits(w, c); }
    var id := w.tasks[c].id;
    assert Get(w.entries, id, w.now)
        == if id !in w.entries then Miss
           else match w.entries[id].payload case Readable(d) => Hit(d) case Unreadable => Corrupt;
    var miss := if held.Waited? then Done(WaitExhausted) else Executing(held);
    assert TokenOf(Discarding(miss)) == TokenOf(miss) && HeldBy(Discarding(miss)) == HeldBy(miss);
    var p := Checked(held, Seen(w, c, e.reply));
    CalmMove(w, c, p);
    MovesCalmly(w, c, p);
  }

  lemma OrderlyFits(w: World, c: Caller)
    requires c in w.tasks && Orderly(w, c)
    ensures Fits(w, w.tasks[c].id, w.tasks[c].phase)
  {}

  lemma MovesCalmly(w: World, c: Caller, p: Phase)
    requires c in w.tasks && c in Move(w, c, p).tasks && Orderly(Move(w, c, p), c) && Beside(w, Move(w, c, p), c)
    ensures ActsCalmly(w, Move(w, c, p), c)
  {}

  lemma CalmStore(w: World, e: Event, t: Timing)
    requires Calm(w) && e.Store? && e.reply == Answered && e.c in w.tasks && Act(w, e, t).Some?
    ensures ActsCalmly(w, Act(w, e, t).value, e.c)
  {
    hide Unexpired;
    assert Orderly(w, e.c);
  }

  lemma CalmRelease(w: World, e: Event, t: Timing)
    requires Calm(w) && e.Release? && e.reply == Answered && e.c in w.tasks && Act(w, e, t).Some?
    ensures ActsCalmly(w, Act(w, e, t).value, e.c)
  {
    assert Orderly(w, e.c);
  }

  lemma CalmDiscard(w: World, e: Event, t: Timing)
    requires Calm(w) && e.Discard? && e.reply == Answered && e.c in w.tasks && Act(w, e, t).Some?
    ensures ActsCalmly(w, Act(w, e, t).value, e.c)
  {
    hide Get, SetNx, ReleaseIfOwner, Unexpired;
    assert Orderly(w, e.c);
  }

  lemma CalmStop(w: World, e: Event, t: Timing)
    requires Calm(w) && e.Stop? && e.c in w.tasks && Act(w, e, t).Some?
    ensures ActsCalmly(w, Act(w, e, t).value, e.c)
  {
    hide ActsCalmly, Move, Orderly, Beside, Unexpired;
    var c := e.c;
    var p := w.tasks[c].phase;
    OrderlyFits(w, c);
    var q := match p
             case Rechecking(held) => Leave(held, Stopped)
             case Executing(held) => Leave(held, Stopped)
             case Discarding(Executing(held)) => Leave(held, Stopped)
             case _ => Done(Stopped);
    CalmMove(w, c, q);
    MovesCalmly(w, c, q);
  }

  lemma CalmOther(w: World, e: Event, t: Timing)
    requires e.ProviderReturns? || e.ProviderFails? || e.Crash? || e.GiveUp?
    requires Calm(w) && e.c in w.tasks && Act(w, e, t).Some?
    ensures ActsCalmly(w, Act(w, e, t).value, e.c)
  {
    hide ActsCalmly, Move, Orderly, Beside, Unexpired;
    var c := e.c;
    OrderlyFits(w, c);
    var p := w.tasks[c].phase;
    var q := match e
             case ProviderReturns(_, data) => Storing(p.held, data)
             case ProviderFails(_) => Leave(p.held, ProviderFailed)
             case GiveUp(_) => Rechecking(Waited)
             case _ => Done(Stopped);
    CalmMove(w, c, q);
    MovesCalmly(w, c, q);
  }

  lemma OthersStayOrderly(w: World, v: World, c: Caller, d: Caller)
    requires Calm(w) && d in w.tasks && d != c && Beside(w, v, c)
    ensures Orderly(v, d)
  {
    assert Orderly(w, d);
    if Holds(w, d) && Holds(w, c) && w.tasks[c].id == w.tasks[d].id { OneOwner(w, c, d); }
  }

  lemma CalmStep(w: World, e: Event, t: Timing)
    requires Calm(w) && AnsweredEvent(e) && Next(w, e, t).Some? && Unexpired(Next(w, e, t).value)
    ensures Calm(Next(w, e, t).value)
  {
    hide Act, Unexpired;
    var v := Next(w, e, t).value;
    if e.Start? || e.Tick? {
      forall d | d in w.tasks ensures Orderly(w, d) && Orderly(v, d) { assert Orderly(w, d); }
    } else {
      CalmAct(w, e, t);
      forall d | d in v.tasks && d != e.c ensures Orderly(v, d) { OthersStayOrderly(w, v, e.c, d); }
    }
  }

  lemma {:induction false} CalmRunStaysCalm(w: World, events: seq<Event>, t: Timing)
    requires Calm(w) && CalmRun(w, events, t)
    ensures Calm(Final(w, events, t))
    decreases |events|
  {
    hide Calm, Next, Unexpired;
    if events != [] {
      var v := Next(w, events[0], t).value;
      assert Unexpired(v) by { assert CalmRun(v, events[1..], t); }
      CalmStep(w, events[0], t);
      CalmRunStaysCalm(v, events[1..], t);
    }
  }

  lemma InitialIsCalm(w: World)
    requires Initial(w) && Unexpired(w)
    ensures Calm(w)
  {}

  /** At most one caller per identity is at the provider, or on its way from the provider to the cache. */
  lemma OneProviderCallAtATime(w: World, events: seq<Event>, t: Timing, c: Caller, d: Caller)
    requires Initial(w) && CalmRun(w, events, t)
    requires var v := Final(w, events, t);
             && c in v.tasks && d in v.tasks && v.tasks[c].id == v.tasks[d].id
             && Working(v.tasks[c].phase) && Working(v.tasks[d].phase)
    ensures c == d
  {
    InitialIsCalm(w);
    CalmRunStaysCalm(w, events, t);
    var v := Final(w, events, t);
    assert Orderly(v, c) && Orderly(v, d);
    OneOwner(v, c, d);
  }

  // ---- After the first stored success

  /** The outcomes an unfinished caller of a cached identity can still have: the cached value, or its own stop. */
  predicate Bound(p: Phase, data: string) {
    match p
    case Executing(_) => false
    case Storing(_, _) => false
    case Discarding(_) => false
    case Releasing(_, o) => o == Cached(data) || o == Stopped
    case Done(o) => o == Cached(data) || o == Stopped
    case _ => true
  }

  predicate Finished(w: World, c: Caller) {
    c in w.tasks && (w.tasks[c].phase.Releasing? || w.tasks[c].phase.Done?)
  }

  /** The identity is cached with this value, and every caller who was not finished at the start is bound to it. */
  ghost predicate Settled(start: World, w: World, id: Identity, data: string) {
    && id in w.entries && w.entries[id].payload == Readable(data)
    && (forall c :: c in w.tasks && w.tasks[c].id == id && !Finished(start, c) ==> Bound(w.tasks[c].phase, data))
    && (forall c :: Finished(start, c) ==> Finished(w, c))
  }

  lemma SettledAct(start: World, w: World, e: Event, t: Timing, id: Identity, data: string)
    requires Calm(w) && Settled(start, w, id, data) && AnsweredEvent(e)
    requires !e.Start? && !e.Tick? && e.c in w.tasks && Act(w, e, t).Some?
    ensures Settled(start, Act(w, e, t).value, id, data)
    ensures w.tasks[e.c].id == id ==> !e.ProviderReturns? && !e.ProviderFails? && !e.Store?
  {
    hide Act;
    var c, v := e.c, Act(w, e, t).value;
    assert Orderly(w, c);
    CalmAct(w, e, t);
    ActKeepsEntry(w, e, t, id);
    ActStaysFinished(w, e, t);
    if w.tasks[c].id == id { ActStaysBound(w, e, t, id, data); }
    forall d | d in v.tasks && v.tasks[d].id == id && !Finished(start, d) ensures Bound(v.tasks[d].phase, data) {
      if d != c { assert v.tasks[d] == w.tasks[d]; }
    }
  }

  /** A cached entry that the acting caller is not about to delete stays as it is. */
  lemma ActKeepsEntry(w: World, e: Event, t: Timing, id: Identity)
    requires Calm(w) && AnsweredEvent(e) && !e.Start? && !e.Tick? && e.c in w.tasks && Act(w, e, t).Some?
    requires id in w.entries && (w.tasks[e.c].id == id ==> !w.tasks[e.c].phase.Discarding?)
    ensures id in Act(w, e, t).value.entries && Act(w, e, t).value.entries[id] == w.entries[id]
  {
    hide SetNx, ReleaseIfOwner, Unexpired, Seen, Checked, Leave, HeldBy, TokenOf;
    assert Orderly(w, e.c);
  }

  /** A caller keeps its identity, and is finished for good. */
  lemma ActStaysFinished(w: World, e: Event, t: Timing)
    requires !e.Start? && !e.Tick? && e.c in w.tasks && Act(w, e, t).Some?
    ensures var v := Act(w, e, t).value;
            && e.c in v.tasks && v.tasks[e.c].id == w.tasks[e.c].id && (Finished(w, e.c) ==> Finished(v, e.c))
  {
    hide SetNx, ReleaseIfOwner, Seen, Checked, Leave, HeldBy, TokenOf;
  }

  /** The acting caller of a cached identity stays bound to the cached value, and is not at the provider. */
  lemma ActStaysBound(w: World, e: Event, t: Timing, id: Identity, data: string)
    requires Calm(w) && AnsweredEvent(e) && !e.Start? && !e.Tick? && e.c in w.tasks && Act(w, e, t).Some?
    requires id in w.entries && w.entries[id].payload == Readable(data) && w.tasks[e.c].id == id
    requires e.c in Act(w, e, t).value.tasks
    ensures Bound(w.tasks[e.c].phase, data) ==> Bound(Act(w, e, t).value.tasks[e.c].phase, data)
    ensures !e.ProviderReturns? && !e.ProviderFails? && !e.Store?
  {
    hide SetNx, ReleaseIfOwner, Get, Unexpired;
    assert Orderly(w, e.c);
    CachedIsSeen(w, id, data);
  }

  lemma CachedIsSeen(w: World, id: Identity, data: string)
    requires Unexpired(w) && id in w.entries && w.entries[id].payload == Readable(data)
    ensures Get(w.entries, id, w.now) == Hit(data)
  {}

  lemma SettledStep(start: World, w: World, e: Event, t: Timing, id: Identity, data: string)
    requires Calm(w) && Settled(start, w, id, data) && AnsweredEvent(e) && Next(w, e, t).Some?
    ensures Settled(start, Next(w, e, t).value, id, data)
    ensures (e.ProviderReturns? || e.ProviderFails? || e.Store?) && e.c in w.tasks ==> w.tasks[e.c].id != id
  {
    hide Act;
    if !e.Start? && !e.Tick? { SettledAct(start, w, e, t, id, data); }
  }

  lemma {:induction false} SettledRun(start: World, w: World, events: seq<Event>, t: Timing, id: Identity, data: string)
    requires Calm(w) && Settled(start, w, id, data) && CalmRun(w, events, t)
    ensures Settled(start, Final(w, events, t), id, data)
    decreases |events|
  {
    hide Calm, Next, Unexpired, Settled;
    if events != [] {
      var v := Next(w, events[0], t).value;
      assert Unexpired(v) by { assert CalmRun(v, events[1..], t); }
      CalmStep(w, events[0], t);
      SettledStep(start, w, events[0], t, id, data);
      SettledRun(start, v, events[1..], t, id, data);
    }
  }

  /** Nobody who works on this identity still has an unreadable entry to delete. */
  ghost predicate NobodyDiscards(w: World, id: Identity) {
    forall c :: c in w.tasks && w.tasks[c].id == id ==> !w.tasks[c].phase.Discarding?
  }

  /** The entry of the start keeps its value, nobody is at the provider for that identity, and every caller who had
      not finished by then, or came later, and is done, ended with exactly that value unless it was itself stopped. */
  ghost predicate Served(start: World, v: World, id: Identity)
    requires CachedAt(start, id)
  {
    var payload := start.entries[id].payload;
    && id in v.entries && v.entries[id].payload == payload
    && (forall c :: c in v.tasks && v.tasks[c].id == id ==> !Working(v.tasks[c].phase))
    && (forall c :: c in v.tasks && v.tasks[c].id == id && !Finished(start, c) && v.tasks[c].phase.Done? ==>
          v.tasks[c].phase.result in {Cached(payload.data), Stopped})
  }

  lemma SettledAtFirst(w: World, id: Identity)
    requires Calm(w) && CachedAt(w, id) && NobodyDiscards(w, id)
    ensures Settled(w, w, id, w.entries[id].payload.data)
  {
    forall c | c in w.tasks && w.tasks[c].id == id && !Finished(w, c)
      ensures Bound(w.tasks[c].phase, w.entries[id].payload.data)
    {
      assert Orderly(w, c);
    }
  }

  lemma SettledIsServed(start: World, v: World, id: Identity)
    requires CachedAt(start, id) && Settled(start, v, id, start.entries[id].payload.data)
    ensures Served(start, v, id)
  {}

  /** One answered deletion of an entry takes it away, readable or not. */
  lemma DiscardDeletes(w: World, t: Timing, c: Caller)
    requires Unexpired(w) && c in w.tasks && w.tasks[c].phase.Discarding?
    ensures CalmRun(w, [Discard(c, Answered)], t)
    ensures w.tasks[c].id !in Final(w, [Discard(c, Answered)], t).entries
  {
    var es := [Discard(c, Answered)];
    var v := Next(w, es[0], t).value;
    assert es[1..] == [];
    assert Unexpired(v);
    assert CalmRun(v, es[1..], t) && Final(w, es, t) == Final(v, es[1..], t) == v;
  }

  /** From a moment at which a result is cached, it serves everybody in every calm continuation exactly when no
      caller of that identity is then about to delete the unreadable entry it found earlier. */
  lemma OneStoredSuccessServesAll(w: World, events: seq<Event>, t: Timing, id: Identity)
    requires Initial(w) && CalmRun(w, events, t) && CachedAt(Final(w, events, t), id)
    ensures var start := Final(w, events, t);
            NobodyDiscards(start, id) <==>
              forall more :: CalmRun(start, more, t) ==> Served(start, Final(start, more, t), id)
  {
    InitialIsCalm(w);
    CalmRunStaysCalm(w, events, t);
    var start := Final(w, events, t);
    hide CalmRun, Final, Calm, Settled, Initial;
    if NobodyDiscards(start, id) {
      SettledAtFirst(start, id);
      forall more | CalmRun(start, more, t) ensures Served(start, Final(start, more, t), id) {
        SettledRun(start, start, more, t, id, start.entries[id].payload.data);
        SettledIsServed(start, Final(start, more, t), id);
      }
    } else {
      var c :| c in start.tasks && start.tasks[c].id == id && start.tasks[c].phase.Discarding?;
      CalmIsUnexpired(start);
      DiscardDeletes(start, t, c);
    }
  }

  lemma CalmIsUnexpired(w: World)
    requires Calm(w)
    ensures Unexpired(w)
  {}

  // ---- What a caller gets

  /** The run of a caller on its own from a phase to its end, by these events. */
  ghost predicate Gets(w: World, t: Timing, c: Caller, es: seq<Event>, o: Outcome) {
    CalmRun(w, es, t) && c in Final(w, es, t).tasks && Final(w, es, t).tasks[c].phase == Done(o)
  }

  lemma CalmThen(w: World, t: Timing, e: Event, v: World, es: seq<Event>)
    requires Unexpired(w) && AnsweredEvent(e) && Next(w, e, t) == Some(v) && CalmRun(v, es, t)
    ensures CalmRun(w, [e] + es, t) && Final(w, [e] + es, t) == Final(v, es, t)
  {
    hide Unexpired, Next;
    assert ([e] + es)[1..] == es;
  }

  lemma CalmNow(w: World, t: Timing)
    requires Unexpired(w)
    ensures CalmRun(w, [], t) && Final(w, [], t) == w
  {}

  lemma MovedIsUnexpired(w: World, c: Caller, p: Phase)
    requires c in w.tasks && Unexpired(w)
    ensures Unexpired(Move(w, c, p))
  {}

  /** A caller that comes while a result is cached returns it after one lookup. */
  lemma NewcomerIsServed(w: World, t: Timing, c: Caller, id: Identity, token: Token, data: string)
    requires Unexpired(w) && c !in w.tasks && token !in w.drawn
    requires id in w.entries && w.entries[id].payload == Readable(data)
    ensures Gets(w, t, c, [Start(c, id), LookUp(c, Answered, token)], Cached(data))
  {
    CachedIsSeen(w, id, data);
    var w1 := w.(tasks := w.tasks[c := Task(id, LookingUp)]);
    var w2 := Move(w1, c, Done(Cached(data)));
    assert Unexpired(w1) && Unexpired(w2);
    hide Unexpired, Get, CalmRun;
    CalmNow(w2, t);
    CalmThen(w1, t, LookUp(c, Answered, token), w2, []);
    CalmThen(w, t, Start(c, id), w1, [LookUp(c, Answered, token)] + []);
    assert [Start(c, id)] + ([LookUp(c, Answered, token)] + []) == [Start(c, id), LookUp(c, Answered, token)];
  }

  /** So does one that waited: after its second lookup and, if it holds the lease, the release. */
  lemma WaiterIsServed(w: World, t: Timing, c: Caller, data: string)
    requires Unexpired(w) && c in w.tasks && w.tasks[c].phase.Rechecking?
    requires w.tasks[c].id in w.entries && w.entries[w.tasks[c].id].payload == Readable(data)
    ensures Gets(w, t, c, if w.tasks[c].phase.held.Waited? then [Recheck(c, Answered)]
                          else [Recheck(c, Answered), Release(c, Answered)], Cached(data))
  {
    CachedIsSeen(w, w.tasks[c].id, data);
    var held := w.tasks[c].phase.held;
    var w1 := Move(w, c, Leave(held, Cached(data)));
    MovedIsUnexpired(w, c, Leave(held, Cached(data)));
    hide Get, CalmRun;
    if held.Waited? {
      CalmNow(w1, t);
      CalmThen(w, t, Recheck(c, Answered), w1, []);
      assert [Recheck(c, Answered)] + [] == [Recheck(c, Answered)];
    } else {
      var w2 := DoRelease(w1, c, Answered).value;
      assert Unexpired(w2);
      CalmNow(w2, t);
      CalmThen(w1, t, Release(c, Answered), w2, []);
      CalmThen(w, t, Recheck(c, Answered), w1, [Release(c, Answered)] + []);
      assert [Recheck(c, Answered)] + ([Release(c, Answered)] + []) == [Recheck(c, Answered), Release(c, Answered)];
    }
  }

  /** Without a cached result: a caller that gave up waiting is told so, one with a lease goes to the provider, and so
      does one for which Redis did not answer. */
  lemma WithoutResult(w: World, t: Timing, c: Caller)
    requires c in w.tasks && w.tasks[c].phase.Rechecking? && Get(w.entries, w.tasks[c].id, w.now) == Miss
    ensures var held := w.tasks[c].phase.held;
            && Next(w, Recheck(c, Answered), t)
               == Some(Move(w, c, if held.Waited? then Done(WaitExhausted) else Executing(held)))
            && Next(w, Recheck(c, Refused), t) == Next(w, Recheck(c, Answered), t)
  {}

  /** A Redis error while acquiring lets the caller go on without a lease; a failed provider call, a failed put and a
      stop end as what they are, and in each case the lease goes. */
  lemma ErrorsDegrade(w: World, t: Timing, c: Caller)
    requires c in w.tasks
    ensures w.tasks[c].phase.Acquiring? ==>
              Next(w, TryAcquire(c, Refused), t) == Some(Move(w, c, Rechecking(Degraded)))
    ensures w.tasks[c].phase.Executing? && !w.tasks[c].phase.held.Waited? ==>
              Next(w, ProviderFails(c), t) == Some(Move(w, c, Releasing(w.tasks[c].phase.held, ProviderFailed)))
    ensures w.tasks[c].phase.Storing? && !w.tasks[c].phase.held.Waited? ==>
              Next(w, Store(c, Refused), t)
              == Some(Move(w, c, Releasing(w.tasks[c].phase.held, Fetched(w.tasks[c].phase.data, false))))
    ensures (w.tasks[c].phase.Rechecking? || w.tasks[c].phase.Executing?) && !w.tasks[c].phase.held.Waited? ==>
              Next(w, Stop(c), t) == Some(Move(w, c, Releasing(w.tasks[c].phase.held, Stopped)))
    ensures w.tasks[c].phase.Releasing? && w.tasks[c].phase.held.Holder?
            && Taken(w.leases, w.tasks[c].id, w.now) && w.leases[w.tasks[c].id].token == w.tasks[c].phase.held.token ==>
              Next(w, Release(c, Answered), t)
              == Some(Move(w.(leases := w.leases - {w.tasks[c].id}), c, Done(w.tasks[c].phase.outcome)))
  {}
}
