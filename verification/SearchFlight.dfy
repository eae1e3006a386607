/** The shared search cache and the single-flight lease in Redis, and the callers that interleave on them. */
module SearchFlight {
  import opened Basics

  type Identity = string
  type Token = nat
  type Caller = nat

  datatype Lease = Lease(token: Token, until: int)
  datatype Payload = Readable(data: string) | Unreadable
  datatype Entry = Entry(payload: Payload, until: int)

  type Leases = map<Identity, Lease>
  type Entries = map<Identity, Entry>

  // ---- Redis commands: a key is gone once the clock has passed its expiry time

  predicate Taken(leases: Leases, id: Identity, now: int) { id in leases && now <= leases[id].until }

  /** SET key token NX PX. */
  function SetNx(leases: Leases, id: Identity, token: Token, now: int, leaseMs: int): Leases {
    if Taken(leases, id, now) then leases else leases[id := Lease(token, now + leaseMs)]
  }

  /** The release script: delete the key only if it still carries this token. */
  function ReleaseIfOwner(leases: Leases, id: Identity, token: Token, now: int): Leases {
    if Taken(leases, id, now) && leases[id].token == token then leases - {id} else leases
  }

  datatype Lookup = Hit(data: string) | Miss | Corrupt | Unavailable

  function Get(entries: Entries, id: Identity, now: int): Lookup {
    if id !in entries || now > entries[id].until then Miss
    else match entries[id].payload case Readable(d) => Hit(d) case Unreadable => Corrupt
  }

  class RedisKeys {
    var leases: Leases
    var entries: Entries

    constructor ()
      ensures leases == map[] && entries == map[]
    {
      leases, entries := map[], map[];
    }

    method TrySet(id: Identity, token: Token, now: int, leaseMs: int) returns (acquired: bool)
      modifies this`leases
      ensures acquired == !Taken(old(leases), id, now)
      ensures leases == SetNx(old(leases), id, token, now, leaseMs)
    {
      acquired := id !in leases || now > leases[id].until;
      if acquired {
        leases := leases[id := Lease(token, now + leaseMs)];
      }
    }

    method Release(id: Identity, token: Token, now: int)
      modifies this`leases
      ensures leases == ReleaseIfOwner(old(leases), id, token, now)
    {
      if id in leases && now <= leases[id].until && leases[id].token == token {
        leases := leases - {id};
      }
    }

    /** RedisSearchCache.get, first command: what is under the key. */
    method Fetch(id: Identity, now: int) returns (r: Lookup)
      ensures r == Get(entries, id, now)
    {
      if id !in entries || now > entries[id].until {
        return Miss;
      }
      match entries[id].payload
      case Readable(d) => r := Hit(d);
      case Unreadable => r := Corrupt;
    }

    /** RedisSearchCache.get, second command, after a corrupt payload: whatever is there by then is deleted. */
    method Delete(id: Identity)
      modifies this`entries
      ensures entries == old(entries) - {id} && forall now :: Get(entries, id, now) == Miss
    {
      entries := entries - {id};
    }

    method Put(id: Identity, data: string, now: int, ttl: int)
      requires ttl >= 1
      modifies this`entries
      ensures entries == old(entries)[id := Entry(Readable(data), now + ttl)]
      ensures Get(entries, id, now) == Hit(data)
    {
      entries := entries[id := Entry(Readable(data), now + ttl)];
    }
  }

  // ---- Callers

  /** What `acquire` returned. A holder's expiry time is kept for the statements below; the code does not know it. */
  datatype Held = Holder(token: Token, until: int) | Degraded | Waited

  datatype Outcome =
    | Cached(data: string)
    | Fetched(data: string, stored: bool)
    | ProviderFailed
    | WaitExhausted
    | Stopped

  datatype Phase =
    | LookingUp
    | Acquiring(token: Token)
    | Rechecking(held: Held)
    | Discarding(next: Phase)
    | Executing(held: Held)
    | Storing(held: Held, data: string)
    | Releasing(held: Held, outcome: Outcome)
    | Done(result: Outcome)

  datatype Task = Task(id: Identity, phase: Phase)

  /** `drawn` remembers which caller drew each random token. */
  datatype World = World(now: int, leases: Leases, entries: Entries, tasks: map<Caller, Task>,
                         drawn: map<Token, Caller>)

  /** A command can be answered, fail without effect, or take effect while its answer is lost. */
  datatype Reply = Answered | Refused | Unheard

  datatype Event =
    | Start(c: Caller, id: Identity)
    | LookUp(c: Caller, reply: Reply, token: Token)
    | Discard(c: Caller, reply: Reply)
    | TryAcquire(c: Caller, reply: Reply)
    | GiveUp(c: Caller)
    | Abandon(c: Caller, applied: bool)
    | Recheck(c: Caller, reply: Reply)
    | ProviderReturns(c: Caller, data: string)
    | ProviderFails(c: Caller)
    | Store(c: Caller, reply: Reply)
    | Release(c: Caller, reply: Reply)
    | Stop(c: Caller)
    | Crash(c: Caller)
    | Tick(ms: nat)

  datatype Timing = Timing(leaseMs: int, ttl: int)

  function Move(w: World, c: Caller, p: Phase): World
    requires c in w.tasks
  {
    w.(tasks := w.tasks[c := w.tasks[c].(phase := p)])
  }

  function Seen(w: World, c: Caller, reply: Reply): Lookup
    requires c in w.tasks
  {
    if reply == Answered then Get(w.entries, w.tasks[c].id, w.now) else Unavailable
  }

  /** The way out of an item: only a held lease is released. */
  function Leave(held: Held, o: Outcome): Phase { if held.Waited? then Done(o) else Releasing(held, o) }

  /** After the second lookup. */
  function Checked(held: Held, seen: Lookup): Phase {
    match seen
    case Hit(d) => Leave(held, Cached(d))
    case _ =>
      var miss := if held.Waited? then Done(WaitExhausted) else Executing(held);
      if seen.Corrupt? then Discarding(miss) else miss
  }

  function DoLookUp(w: World, c: Caller, reply: Reply, token: Token): Option<World>
    requires c in w.tasks
  {
    if w.tasks[c].phase != LookingUp || token in w.drawn then None
    else
      var drew := w.(drawn := w.drawn[token := c]);
      match Seen(w, c, reply)
      case Hit(d) => Some(Move(w, c, Done(Cached(d))))
      case Corrupt => Some(Move(drew, c, Discarding(Acquiring(token))))
      case _ => Some(Move(drew, c, Acquiring(token)))
  }

  function DoDiscard(w: World, c: Caller, reply: Reply): Option<World>
    requires c in w.tasks
  {
    if !w.tasks[c].phase.Discarding? then None
    else
      var v := if reply == Refused then w else w.(entries := w.entries - {w.tasks[c].id});
      Some(Move(v, c, w.tasks[c].phase.next))
  }

  /** One round of the polling loop; a Redis error makes the caller a holder without a token. */
  function DoTryAcquire(w: World, c: Caller, reply: Reply, t: Timing): Option<World>
    requires c in w.tasks
  {
    if !w.tasks[c].phase.Acquiring? then None
    else
      var id, token := w.tasks[c].id, w.tasks[c].phase.token;
      var v := if reply == Refused then w else w.(leases := SetNx(w.leases, id, token, w.now, t.leaseMs));
      if reply != Answered then Some(Move(v, c, Rechecking(Degraded)))
      else if Taken(w.leases, id, w.now) then Some(w)
      else Some(Move(v, c, Rechecking(Holder(token, w.now + t.leaseMs))))
  }

  function DoAbandon(w: World, c: Caller, applied: bool, t: Timing): Option<World>
    requires c in w.tasks
  {
    if !w.tasks[c].phase.Acquiring? then None
    else
      var id, token := w.tasks[c].id, w.tasks[c].phase.token;
      var v := if applied then w.(leases := SetNx(w.leases, id, token, w.now, t.leaseMs)) else w;
      Some(Move(v, c, Done(Stopped)))
  }

  function DoStore(w: World, c: Caller, reply: Reply, t: Timing): Option<World>
    requires c in w.tasks
  {
    match w.tasks[c].phase
    case Storing(held, data) =>
      var v := if reply == Refused then w
               else w.(entries := w.entries[w.tasks[c].id := Entry(Readable(data), w.now + t.ttl)]);
      Some(Move(v, c, Leave(held, Fetched(data, reply == Answered))))
    case _ => None
  }

  function DoRelease(w: World, c: Caller, reply: Reply): Option<World>
    requires c in w.tasks
  {
    match w.tasks[c].phase
    case Releasing(held, o) =>
      var v := if held.Holder? && reply != Refused
               then w.(leases := ReleaseIfOwner(w.leases, w.tasks[c].id, held.token, w.now)) else w;
      Some(Move(v, c, Done(o)))
    case _ => None
  }

  /** Deadline or cancellation outside `acquire` and `put`. */
  function DoStop(w: World, c: Caller): Option<World>
    requires c in w.tasks
  {
    match w.tasks[c].phase
    case LookingUp => Some(Move(w, c, Done(Stopped)))
    case Rechecking(held) => Some(Move(w, c, Leave(held, Stopped)))
    case Discarding(Acquiring(_)) => Some(Move(w, c, Done(Stopped)))
    case Discarding(Executing(held)) => Some(Move(w, c, Leave(held, Stopped)))
    case Discarding(Done(_)) => Some(Move(w, c, Done(Stopped)))
    case Executing(held) => Some(Move(w, c, Leave(held, Stopped)))
    case _ => None
  }

  function Next(w: World, e: Event, t: Timing): Option<World> {
    match e
    case Start(c, id) => if c in w.tasks then None else Some(w.(tasks := w.tasks[c := Task(id, LookingUp)]))
    case Tick(ms) => Some(w.(now := w.now + ms))
    case _ => if e.c in w.tasks then Act(w, e, t) else None
  }

  function Act(w: World, e: Event, t: Timing): Option<World>
    requires !e.Start? && !e.Tick? && e.c in w.tasks
  {
    var p := w.tasks[e.c].phase;
    match e
    case LookUp(c, reply, token) => DoLookUp(w, c, reply, token)
    case Discard(c, reply) => DoDiscard(w, c, reply)
    case TryAcquire(c, reply) => DoTryAcquire(w, c, reply, t)
    case GiveUp(c) => if p.Acquiring? then Some(Move(w, c, Rechecking(Waited))) else None
    case Abandon(c, applied) => DoAbandon(w, c, applied, t)
    case Recheck(c, reply) => if p.Rechecking? then Some(Move(w, c, Checked(p.held, Seen(w, c, reply)))) else None
    case ProviderReturns(c, data) => if p.Executing? then Some(Move(w, c, Storing(p.held, data))) else None
    case ProviderFails(c) => if p.Executing? then Some(Move(w, c, Leave(p.held, ProviderFailed))) else None
    case Store(c, reply) => DoStore(w, c, reply, t)
    case Release(c, reply) => DoRelease(w, c, reply)
    case Stop(c) => DoStop(w, c)
    case Crash(c) => Some(Move(w, c, Done(Stopped)))
  }

  /** The worlds of a run; `None` if some event was not possible. */
  function After(w: World, events: seq<Event>, t: Timing): Option<World> {
    if events == [] then Some(w)
    else match After(w, events[..|events| - 1], t)
         case None => None
         case Some(v) => Next(v, events[|events| - 1], t)
  }

  predicate Initial(w: World) { w.tasks == map[] && w.drawn == map[] }

  // ---- At most one unexpired holder per identity

  function HeldBy(p: Phase): Option<Held> {
    match p
    case Rechecking(h) => Some(h)
    case Discarding(next) => HeldBy(next)
    case Executing(h) => Some(h)
    case Storing(h, _) => Some(h)
    case Releasing(h, _) => Some(h)
    case _ => None
  }

  function TokenOf(p: Phase): (r: Option<Token>)
    ensures HeldBy(p).Some? && HeldBy(p).value.Holder? ==> r == Some(HeldBy(p).value.token)
  {
    match p
    case Acquiring(t) => Some(t)
    case Discarding(next) => TokenOf(next)
    case _ => match HeldBy(p) case Some(Holder(t, _)) => Some(t) case _ => None
  }

  predicate Holds(w: World, c: Caller) {
    c in w.tasks && HeldBy(w.tasks[c].phase).Some? && HeldBy(w.tasks[c].phase).value.Holder?
  }

  function HolderOf(w: World, c: Caller): Held
    requires Holds(w, c)
  {
    HeldBy(w.tasks[c].phase).value
  }

  predicate Active(w: World, c: Caller) { Holds(w, c) && w.now <= HolderOf(w, c).until }

  /** A caller's own tokens are its own, and an unexpired holder's key is in Redis. */
  ghost predicate Backed(w: World, c: Caller)
    requires c in w.tasks
  {
    var p := w.tasks[c].phase;
    && (TokenOf(p).Some? ==> TokenOf(p).value in w.drawn && w.drawn[TokenOf(p).value] == c)
    && (Active(w, c) ==>
          w.tasks[c].id in w.leases && w.leases[w.tasks[c].id] == Lease(HolderOf(w, c).token, HolderOf(w, c).until))
  }

  ghost predicate Exclusive(w: World) { forall c :: c in w.tasks ==> Backed(w, c) }

  /** The commands that touch a lease leave every other caller's unexpired lease alone. */
  lemma LeaseCommandsSpareOthers(w: World, c: Caller, d: Caller, token: Token, t: Timing)
    requires d in w.tasks && Backed(w, d) && Active(w, d)
    requires token in w.drawn && w.drawn[token] == c && c != d
    ensures var id := w.tasks[d].id;
            forall i ::
              && id in SetNx(w.leases, i, token, w.now, t.leaseMs) && id in ReleaseIfOwner(w.leases, i, token, w.now)
              && SetNx(w.leases, i, token, w.now, t.leaseMs)[id] == w.leases[id]
              && ReleaseIfOwner(w.leases, i, token, w.now)[id] == w.leases[id]
  {}

  predicate OthersUntouched(w: World, v: World, c: Caller) {
    && v.now >= w.now
    && v.tasks.Keys == w.tasks.Keys + {c}
    && (forall d :: d in w.tasks && d != c ==> v.tasks[d] == w.tasks[d])
    && (forall k :: k in w.drawn ==> k in v.drawn && v.drawn[k] == w.drawn[k])
  }

  /** One event touches one caller, and its lease command carries that caller's token. */
  ghost predicate LeaseEffect(w: World, v: World, c: Caller, t: Timing) {
    || v.leases == w.leases
    || (exists id, token :: token in w.drawn && w.drawn[token] == c
          && (|| v.leases == SetNx(w.leases, id, token, w.now, t.leaseMs)
              || v.leases == ReleaseIfOwner(w.leases, id, token, w.now)))
  }

  ghost predicate Effects(w: World, v: World, c: Caller, t: Timing) {
    v.now == w.now && OthersUntouched(w, v, c) && LeaseEffect(w, v, c, t)
  }

  /** What an event may do to its caller's place in the protocol: give up a lease, never gain one. */
  predicate Shrinks(p: Phase, q: Phase) {
    && (TokenOf(q) == None || TokenOf(q) == TokenOf(p))
    && (HeldBy(q) == HeldBy(p) || HeldBy(q) == None || !HeldBy(q).value.Holder?)
  }

  lemma PlainMove(w: World, v: World, c: Caller, p: Phase, t: Timing)
    requires c in w.tasks && Backed(w, c) && Shrinks(w.tasks[c].phase, p)
    requires v.tasks == w.tasks && v.now == w.now && v.leases == w.leases && v.drawn == w.drawn
    ensures Effects(w, Move(v, c, p), c, t) && Backed(Move(v, c, p), c)
  {
    hide HeldBy, TokenOf;
  }

  lemma LookUpOwn(w: World, c: Caller, reply: Reply, token: Token, t: Timing)
    requires c in w.tasks && Backed(w, c) && DoLookUp(w, c, reply, token).Some?
    ensures var v := DoLookUp(w, c, reply, token).value; Effects(w, v, c, t) && Backed(v, c)
  {
    hide Seen;
    var q := Acquiring(token);
    assert TokenOf(Discarding(q)) == TokenOf(q) == Some(token) && HeldBy(Discarding(q)) == HeldBy(q) == None;
    match Seen(w, c, reply)
    case Hit(d) => PlainMove(w, w, c, Done(Cached(d)), t);
    case _ => DrawnOwn(w, c, token, if Seen(w, c, reply).Corrupt? then Discarding(q) else q, t);
  }

  lemma DrawnOwn(w: World, c: Caller, token: Token, p: Phase, t: Timing)
    requires c in w.tasks && token !in w.drawn && HeldBy(p) == None && TokenOf(p) == Some(token)
    ensures var v := Move(w.(drawn := w.drawn[token := c]), c, p); Effects(w, v, c, t) && Backed(v, c)
  {
    hide HeldBy, TokenOf;
  }

  lemma AcquireOwn(w: World, c: Caller, reply: Reply, t: Timing)
    requires c in w.tasks && Backed(w, c) && DoTryAcquire(w, c, reply, t).Some?
    ensures var v := DoTryAcquire(w, c, reply, t).value; Effects(w, v, c, t) && Backed(v, c)
  {
    hide ReleaseIfOwner;
    var v := DoTryAcquire(w, c, reply, t).value;
    var id, token := w.tasks[c].id, w.tasks[c].phase.token;
    assert v.leases == w.leases || v.leases == SetNx(w.leases, id, token, w.now, t.leaseMs);
  }

  lemma AbandonOwn(w: World, c: Caller, applied: bool, t: Timing)
    requires c in w.tasks && Backed(w, c) && DoAbandon(w, c, applied, t).Some?
    ensures var v := DoAbandon(w, c, applied, t).value; Effects(w, v, c, t) && Backed(v, c)
  {
    hide SetNx, ReleaseIfOwner, Taken;
    var v := DoAbandon(w, c, applied, t).value;
    var id, token := w.tasks[c].id, w.tasks[c].phase.token;
    assert v.leases == w.leases || v.leases == SetNx(w.leases, id, token, w.now, t.leaseMs);
  }

  lemma ReleaseOwn(w: World, c: Caller, reply: Reply, t: Timing)
    requires c in w.tasks && Backed(w, c) && DoRelease(w, c, reply).Some?
    ensures var v := DoRelease(w, c, reply).value; Effects(w, v, c, t) && Backed(v, c)
  {
    hide SetNx, ReleaseIfOwner, Taken;
    var v := DoRelease(w, c, reply).value;
    var id, held := w.tasks[c].id, w.tasks[c].phase.held;
    if held.Holder? { assert v.leases == w.leases || v.leases == ReleaseIfOwner(w.leases, id, held.token, w.now); }
  }

  lemma StopOwn(w: World, c: Caller, t: Timing)
    requires c in w.tasks && Backed(w, c) && DoStop(w, c).Some?
    ensures var v := DoStop(w, c).value; Effects(w, v, c, t) && Backed(v, c)
  {
    hide Effects, Backed, Move;
    var p := w.tasks[c].phase;
    match p
    case Discarding(Executing(held)) => PlainMove(w, w, c, Leave(held, Stopped), t);
    case Rechecking(held) => PlainMove(w, w, c, Leave(held, Stopped), t);
    case Executing(held) => PlainMove(w, w, c, Leave(held, Stopped), t);
    case _ => PlainMove(w, w, c, Done(Stopped), t);
  }

  lemma RecheckOwn(w: World, c: Caller, reply: Reply, t: Timing)
    requires c in w.tasks && Backed(w, c) && w.tasks[c].phase.Rechecking?
    ensures var v := Move(w, c, Checked(w.tasks[c].phase.held, Seen(w, c, reply))); Effects(w, v, c, t) && Backed(v, c)
  {
    hide Effects, Backed, Move, Seen;
    var held, seen := w.tasks[c].phase.held, Seen(w, c, reply);
    var miss := if held.Waited? then Done(WaitExhausted) else Executing(held);
    assert TokenOf(Discarding(miss)) == TokenOf(miss) && HeldBy(Discarding(miss)) == HeldBy(miss);
    PlainMove(w, w, c, Checked(held, seen), t);
  }

  lemma ActOwn(w: World, e: Event, t: Timing)
    requires !e.Start? && !e.Tick? && e.c in w.tasks && Act(w, e, t).Some? && Backed(w, e.c)
    ensures var v := Act(w, e, t).value; Effects(w, v, e.c, t) && Backed(v, e.c)
  {
    hide Effects, Backed, Move, DoLookUp, DoTryAcquire, DoAbandon, DoRelease, DoStop, Checked, Seen;
    var p := w.tasks[e.c].phase;
    match e
    case LookUp(c, reply, token) => LookUpOwn(w, c, reply, token, t);
    case Discard(c, reply) =>
      PlainMove(w, if reply == Refused then w else w.(entries := w.entries - {w.tasks[c].id}), c, p.next, t);
    case TryAcquire(c, reply) => AcquireOwn(w, c, reply, t);
    case GiveUp(c) => PlainMove(w, w, c, Rechecking(Waited), t);
    case Abandon(c, applied) => AbandonOwn(w, c, applied, t);
    case Recheck(c, reply) => RecheckOwn(w, c, reply, t);
    case ProviderReturns(c, data) => PlainMove(w, w, c, Storing(p.held, data), t);
    case ProviderFails(c) => PlainMove(w, w, c, Leave(p.held, ProviderFailed), t);
    case Store(c, reply) =>
      PlainMove(w, if reply == Refused then w
                   else w.(entries := w.entries[w.tasks[c].id := Entry(Readable(p.data), w.now + t.ttl)]),
                c, Leave(p.held, Fetched(p.data, reply == Answered)), t);
    case Release(c, reply) => ReleaseOwn(w, c, reply, t);
    case Stop(c) => StopOwn(w, c, t);
    case Crash(c) => PlainMove(w, w, c, Done(Stopped), t);
  }

  lemma OthersStayBacked(w: World, v: World, c: Caller, d: Caller, t: Timing)
    requires d in w.tasks && d != c && Backed(w, d) && Effects(w, v, c, t)
    ensures Backed(v, d)
  {
    hide SetNx, ReleaseIfOwner, HeldBy;
    if Active(w, d) && v.leases != w.leases {
      var id, token :| token in w.drawn && w.drawn[token] == c
        && (|| v.leases == SetNx(w.leases, id, token, w.now, t.leaseMs)
            || v.leases == ReleaseIfOwner(w.leases, id, token, w.now));
      LeaseCommandsSpareOthers(w, c, d, token, t);
    }
  }

  lemma StepKeepsExclusive(w: World, e: Event, t: Timing)
    requires Exclusive(w) && Next(w, e, t).Some?
    ensures Exclusive(Next(w, e, t).value)
  {
    hide Act;
    var v := Next(w, e, t).value;
    if !e.Start? && !e.Tick? {
      ActOwn(w, e, t);
      forall d | d in v.tasks && d != e.c ensures Backed(v, d) { OthersStayBacked(w, v, e.c, d, t); }
    }
  }

  lemma {:induction false} RunKeepsExclusive(w: World, events: seq<Event>, t: Timing)
    requires Initial(w) && After(w, events, t).Some?
    ensures Exclusive(After(w, events, t).value)
  {
    hide Next, Backed;
    if events != [] {
      var before := events[..|events| - 1];
      RunKeepsExclusive(w, before, t);
      StepKeepsExclusive(After(w, before, t).value, events[|events| - 1], t);
    }
  }

  /** In every reachable world at most one caller per identity holds an unexpired token-bearing lease. */
  lemma OneUnexpiredHolder(w: World, events: seq<Event>, t: Timing, c: Caller, d: Caller)
    requires Initial(w) && After(w, events, t).Some?
    requires var v := After(w, events, t).value;
             Active(v, c) && Active(v, d) && v.tasks[c].id == v.tasks[d].id
    ensures c == d
  {
    RunKeepsExclusive(w, events, t);
    var v := After(w, events, t).value;
    assert Backed(v, c) && Backed(v, d);
  }

  /** Whoever releases, expired or not, every other unexpired holder's key stays as it is. */
  lemma ReleaseSparesSuccessor(w: World, events: seq<Event>, t: Timing, c: Caller, reply: Reply, d: Caller)
    requires Initial(w) && After(w, events, t).Some?
    requires Next(After(w, events, t).value, Release(c, reply), t).Some?
    requires d != c && Active(After(w, events, t).value, d)
    ensures var before, after := After(w, events, t).value, Next(After(w, events, t).value, Release(c, reply), t).value;
            var id := before.tasks[d].id;
            id in before.leases && id in after.leases && after.leases[id] == before.leases[id] && Active(after, d)
  {
    RunKeepsExclusive(w, events, t);
    var v := After(w, events, t).value;
    var u := Next(v, Release(c, reply), t).value;
    StepKeepsExclusive(v, Release(c, reply), t);
    assert Backed(v, c) && Backed(v, d) && Backed(u, d);
  }
}
