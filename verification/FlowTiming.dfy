/** Key expiry changes no decision, and the retry delay is exact. */
module FlowTiming {
  import opened Basics
  import opened FlowControl
  import opened FlowSafety

  /** A bucket key as the script writes it. */
  predicate SoundBucket(p: BucketPolicy, ttl: int, b: Option<Bucket>, now: int) {
    b.Some? ==> && 0.0 <= b.value.tokens <= p.capacity as real && b.value.updated <= now
                && (b.value.expires.Some? ==> b.value.expires.value >= b.value.updated + ttl)
  }

  /** Keys with the expiries the scripts give them; a loss may restore any such keys. */
  ghost predicate Sound(c: Settings, r: Redis, now: int)
    requires c.Valid()
  {
    && (forall who :: SoundBucket(PolicyOf(c, who), TtlMs(c), BucketOf(r, who), now))
    && (forall k :: k in r.leases ==>
          r.leases[k] <= now + LeaseMs(c) && (r.leasesExpire.Some? ==> r.leases[k] <= r.leasesExpire.value))
  }

  /** Unlimited by expiry, a sound bucket shows the refilled tokens at every later time. */
  lemma SoundLevel(c: Settings, who: Option<string>, b: Option<Bucket>, now: int, t: int)
    requires c.Valid() && SoundBucket(PolicyOf(c, who), TtlMs(c), b, now) && t >= now
    ensures var p := PolicyOf(c, who);
            Level(p, b, t) == MinReal(p.capacity as real, Level(p, b, now) + Gain(p, t - now))
  {
    var p := PolicyOf(c, who);
    TtlFills(c);
    hide TtlMs;
    GainMonotone(p, 0, t - now);
    if b.Some? {
      var since := b.value.updated;
      GainAdds(p, now - since, t - now);
      if Gone(b.value.expires, t) { GainMonotone(p, TtlMs(c), t - since); }
      if Gone(b.value.expires, now) { GainMonotone(p, TtlMs(c), now - since); }
    }
  }

  // ---- retry delay ----

  /** A positive factor keeps the order. */
  lemma Scaled(r: real, a: real, b: real)
    requires r > 0.0
    ensures a >= b <==> r * a >= r * b
    ensures r * a == r * b ==> a == b
  {
    assert r * a - r * b == r * (a - b);
    if a > b {
      assert r * (a - b) > 0.0;
    } else if a < b {
      assert r * (b - a) > 0.0;
      assert r * (a - b) == -(r * (b - a));
    }
  }

  /** The wait is what refilling the missing part takes. */
  lemma WaitRefills(p: BucketPolicy, level: real)
    requires p.Valid() && level < 1.0
    ensures p.refill * (Wait(p, level) * 1000.0) == (1.0 - level) * 1000.0
  {
    var w := Wait(p, level);
    assert p.refill * w == 1.0 - level;
    assert p.refill * (w * 1000.0) == p.refill * w * 1000.0;
  }

  /** The millisecond at which a bucket first holds a unit again. */
  lemma WaitIsExact(p: BucketPolicy, level: real, ms: int)
    requires p.Valid() && ms >= 0
    ensures MinReal(p.capacity as real, level + Gain(p, ms)) >= 1.0 <==> ms as real >= Wait(p, level) * 1000.0
  {
    if level < 1.0 {
      WaitRefills(p, level);
      GainInThousands(p, ms);
      RefillReaches(p.refill, level, Gain(p, ms), ms as real, Wait(p, level) * 1000.0);
      hide Wait, Gain;
    } else {
      GainIsNatural(p, ms);
      hide Gain;
    }
  }

  lemma RefillReaches(r: real, level: real, gain: real, ms: real, wait: real)
    requires r > 0.0 && gain * 1000.0 == r * ms && r * wait == (1.0 - level) * 1000.0
    ensures level + gain >= 1.0 <==> ms >= wait
  {
    Scaled(r, ms, wait);
    var a, b := r * ms, r * wait;
    assert ms >= wait <==> a >= b;
    assert gain * 1000.0 == a && (1.0 - level) * 1000.0 == b;
  }

  lemma GainIsNatural(p: BucketPolicy, ms: nat)
    requires p.Valid()
    ensures Gain(p, ms) >= 0.0
  {
    GainMonotone(p, 0, ms);
    assert Gain(p, 0) == 0.0;
  }

  lemma GainInThousands(p: BucketPolicy, ms: int)
    ensures Gain(p, ms) * 1000.0 == p.refill * (ms as real)
  {}

  /** With nothing admitted in between, a limited request is admitted exactly from the returned delay on:
      after that many milliseconds, and at no earlier one. */
  lemma RetryDelayIsExact(c: Settings, r: Redis, now: int, principal: string, nonce: string, ms: nat, again: string)
    requires c.Valid() && Sound(c, r, now) && Admit(c, r, now, principal, nonce).1.Limited?
    ensures var (d, decision) := Admit(c, r, now, principal, nonce);
            && decision.delayMs >= 1
            && (Admit(c, d, now + ms, principal, again).1 == Allowed <==> ms >= decision.delayMs)
            && (ms < decision.delayMs ==> Admit(c, d, now + ms, principal, again).1 == Limited(decision.delayMs - ms))
  {
    hide TtlMs, RateQuarantineMs, Wait, Ceil, Gain, Level;
    var (d, _) := Admit(c, r, now, principal, nonce);
    var mine, all := Level(c.principal, PrincipalBucket(d, principal), now), Level(c.global, d.global, now);
    assert SoundBucket(PolicyOf(c, Some(principal)), TtlMs(c), BucketOf(r, Some(principal)), now);
    assert SoundBucket(PolicyOf(c, None), TtlMs(c), BucketOf(r, None), now);
    hide SoundBucket;
    SoundLevel(c, Some(principal), BucketOf(d, Some(principal)), now, now + ms);
    SoundLevel(c, None, BucketOf(d, None), now, now + ms);
    DelayShrinks(c, mine, all, ms);
  }

  /** The script's delay in milliseconds, for the levels of the two buckets. */
  function Delay(c: Settings, mine: real, all: real): int
    requires c.Valid()
  {
    Ceil(MaxReal(Wait(c.principal, mine), Wait(c.global, all)) * 1000.0)
  }

  lemma DelayShrinks(c: Settings, mine: real, all: real, ms: nat)
    requires c.Valid() && (mine < 1.0 || all < 1.0)
    ensures var mine', all' := MinReal(c.principal.capacity as real, mine + Gain(c.principal, ms)),
                               MinReal(c.global.capacity as real, all + Gain(c.global, ms));
            && Delay(c, mine, all) >= 1
            && (mine' >= 1.0 && all' >= 1.0 <==> ms >= Delay(c, mine, all))
            && (ms < Delay(c, mine, all) ==> Delay(c, mine', all') == Delay(c, mine, all) - ms)
  {
    WaitIsExact(c.principal, mine, ms);
    WaitIsExact(c.global, all, ms);
    WaitShrinks(c.principal, mine, ms);
    WaitShrinks(c.global, all, ms);
    WaitIsPositive(c.principal, mine);
    WaitIsPositive(c.global, all);
    hide Wait, Gain, Ceil;
    var wait := MaxReal(Wait(c.principal, mine), Wait(c.global, all)) * 1000.0;
    assert wait == MaxReal(Wait(c.principal, mine) * 1000.0, Wait(c.global, all) * 1000.0);
    CeilShifts(wait, 0);
    CeilShifts(wait, ms);
  }

  lemma WaitIsPositive(p: BucketPolicy, level: real)
    requires p.Valid()
    ensures Wait(p, level) >= 0.0 && (level < 1.0 ==> Wait(p, level) > 0.0)
  {}

  /** A quarantined request is told exactly how long the quarantine still lasts. */
  lemma QuarantineDelayIsExact(c: Settings, r: Redis, now: int, principal: string, nonce: string, ms: nat,
                               again: string)
    requires c.Valid() && Admit(c, r, now, principal, nonce).1.Quarantined?
    ensures var (d, decision) := Admit(c, r, now, principal, nonce);
            && decision.waitMs >= 1
            && (Admit(c, d, now + ms, principal, again).1.Quarantined? <==> ms < decision.waitMs)
            && (ms < decision.waitMs ==>
                  Admit(c, d, now + ms, principal, again) == (d, Quarantined(decision.waitMs - ms)))
  {
    hide RateQuarantineMs, Level, Wait, Ceil, TtlMs;
  }

  lemma CeilShifts(x: real, ms: int)
    ensures ms >= Ceil(x) <==> ms as real >= x
    ensures Ceil(x - ms as real) == Ceil(x) - ms
  {
    assert -(x - ms as real) == -x + ms as real;
  }

  /** The remaining wait drops by the time that passed. */
  lemma WaitShrinks(p: BucketPolicy, level: real, ms: int)
    requires p.Valid() && 0 <= ms
    ensures var later := MinReal(p.capacity as real, level + Gain(p, ms));
            Wait(p, later) * 1000.0 == MaxReal(0.0, Wait(p, level) * 1000.0 - ms as real)
  {
    GainIsNatural(p, ms);
    WaitIsExact(p, level, ms);
    var later := MinReal(p.capacity as real, level + Gain(p, ms));
    if later < 1.0 {
      WaitIsShorter(p, level, later, ms);
    }
  }

  lemma WaitIsShorter(p: BucketPolicy, level: real, later: real, ms: int)
    requires p.Valid() && level < 1.0 && later < 1.0 && later == level + Gain(p, ms)
    ensures Wait(p, later) * 1000.0 == Wait(p, level) * 1000.0 - ms as real
  {
    WaitRefills(p, level);
    WaitRefills(p, later);
    hide Wait;
    var w, v, r := Wait(p, level) * 1000.0, Wait(p, later) * 1000.0, p.refill;
    GainInThousands(p, ms);
    hide Gain;
    assert r * (w - ms as real) == r * w - r * (ms as real);
    Scaled(r, v, w - ms as real);
  }

  // ---- key expiry ----

  /** The same keys without any time to live. */
  function Persist(r: Redis): Redis {
    r.(principals := map k | k in r.principals :: r.principals[k].(expires := None),
       global := if r.global.Some? then Some(r.global.value.(expires := None)) else None,
       leasesExpire := None)
  }

  /** A run on a server that never expires a key. */
  function AfterForever(c: Settings, s: System, es: seq<Event>): System
    requires c.Valid()
  {
    if es == [] then s.(redis := Persist(s.redis))
    else var t := Step(c, AfterForever(c, s, es[..|es| - 1]), es[|es| - 1]); t.(redis := Persist(t.redis))
  }

  /** What the client of an event is told. */
  datatype Answer = Rate(Decision) | Lease(LeaseDecision) | Nothing

  function AnswerTo(c: Settings, s: System, e: Event): Answer
    requires c.Valid()
  {
    match e
    case AdmitFor(principal, nonce) => Rate(Admit(c, s.redis, s.now, principal, nonce).1)
    case AcquireFor(token, nonce) => Lease(Acquire(c, s.redis, s.now, token, nonce).1)
    case _ => Nothing
  }

  /** The view of one bucket, at every time from now on. */
  ghost predicate SameLevel(p: BucketPolicy, a: Option<Bucket>, b: Option<Bucket>, now: int) {
    forall t :: t >= now ==> Level(p, a, t) == Level(p, b, t)
  }

  /** The view of the lease set, at every time from now on. */
  ghost predicate SameLeases(r: Redis, f: Redis, now: int) {
    forall t :: t >= now ==> LiveLeases(r, t) == LiveLeases(f, t)
  }

  /** A server with expiry and one without show the same at every time from now on. */
  ghost predicate SameView(c: Settings, r: Redis, f: Redis, now: int) {
    && r.runId == f.runId && r.marker == f.marker
    && (forall who :: SameLevel(PolicyOf(c, who), BucketOf(r, who), BucketOf(f, who), now))
    && SameLeases(r, f, now)
  }

  /** Every loss along the run restores sound keys. */
  ghost predicate SoundRun(c: Settings, s: System, es: seq<Event>)
    requires c.Valid()
  {
    && Sound(c, s.redis, s.now)
    && forall i :: 0 <= i < |es| && es[i].Lose? ==> Sound(c, es[i].redis, After(c, s, es[..i]).now)
  }

  lemma PersistLooksSame(c: Settings, r: Redis, now: int)
    requires c.Valid() && Sound(c, r, now)
    ensures SameView(c, r, Persist(r), now)
  {
    hide TtlMs, LeaseMs;
    var f := Persist(r);
    forall who ensures SameLevel(PolicyOf(c, who), BucketOf(r, who), BucketOf(f, who), now) {
      assert SoundBucket(PolicyOf(c, who), TtlMs(c), BucketOf(r, who), now);
      if BucketOf(r, who).Some? {
        forall t | t >= now
          ensures Level(PolicyOf(c, who), BucketOf(r, who), t) == Level(PolicyOf(c, who), BucketOf(f, who), t)
        {
          ExpiredIsFull(c, who, BucketOf(r, who), now, t);
        }
      }
    }
  }

  lemma ExpiredIsFull(c: Settings, who: Option<string>, b: Option<Bucket>, now: int, t: int)
    requires c.Valid() && SoundBucket(PolicyOf(c, who), TtlMs(c), b, now) && t >= now && b.Some?
    ensures Level(PolicyOf(c, who), b, t) == Level(PolicyOf(c, who), Some(b.value.(expires := None)), t)
  {
    TtlFills(c);
    hide TtlMs;
    if Gone(b.value.expires, t) { GainMonotone(PolicyOf(c, who), TtlMs(c), t - b.value.updated); }
  }

  /** A just charged bucket looks the same with and without its expiry. */
  lemma ChargedLooksSame(c: Settings, who: Option<string>, level: real, now: int)
    requires c.Valid() && 1.0 <= level <= PolicyOf(c, who).capacity as real
    ensures SameLevel(PolicyOf(c, who), Some(Charged(level, now, Some(now + TtlMs(c)))),
                      Some(Charged(level, now, None)), now)
  {
    hide TtlMs;
    var b := Charged(level, now, Some(now + TtlMs(c)));
    forall t | t >= now
      ensures Level(PolicyOf(c, who), Some(b), t) == Level(PolicyOf(c, who), Some(b.(expires := None)), t)
    {
      ExpiredIsFull(c, who, Some(b), now, t);
    }
  }

  lemma AdmitSameDecision(c: Settings, r: Redis, f: Redis, now: int, principal: string, nonce: string)
    requires c.Valid() && SameView(c, r, f, now)
    ensures Admit(c, r, now, principal, nonce).1 == Admit(c, f, now, principal, nonce).1
    ensures Admit(c, r, now, principal, nonce).0.marker == Admit(c, f, now, principal, nonce).0.marker
  {
    hide TtlMs, RateQuarantineMs, Wait, Ceil, Level, LiveLeases;
    assert SameLevel(PolicyOf(c, Some(principal)), BucketOf(r, Some(principal)), BucketOf(f, Some(principal)), now);
    assert SameLevel(PolicyOf(c, None), BucketOf(r, None), BucketOf(f, None), now);
  }

  /** A bucket written by a clock that is ahead gains nothing until that time. */
  lemma FutureUpdateGainsNothing(p: BucketPolicy, b: Bucket, now: int)
    requires b.updated >= now && b.expires.None?
    ensures Level(p, Some(b), now) == MinReal(p.capacity as real, b.tokens)
  {}

  lemma LevelIsCapped(p: BucketPolicy, b: Option<Bucket>, now: int)
    ensures Level(p, b, now) <= p.capacity as real
  {}

  lemma AdmitSameView(c: Settings, r: Redis, f: Redis, now: int, principal: string, nonce: string)
    requires c.Valid() && SameView(c, r, f, now) && f == Persist(f)
    ensures SameView(c, Admit(c, r, now, principal, nonce).0, Persist(Admit(c, f, now, principal, nonce).0), now)
  {
    hide Admit, SameLevel, TtlMs, Level, Gain, RateQuarantineMs;
    AdmitSameDecision(c, r, f, now, principal, nonce);
    var allowed := Admit(c, r, now, principal, nonce).1.Allowed?;
    var r', g := Admit(c, r, now, principal, nonce).0, Admit(c, f, now, principal, nonce).0;
    var f' := Persist(g);
    ChargesBothOrNeither(c, r, now, principal, nonce, None);
    ChargesBothOrNeither(c, f, now, principal, nonce, None);
    forall who ensures SameLevel(PolicyOf(c, who), BucketOf(r', who), BucketOf(f', who), now) {
      assert SameLevel(PolicyOf(c, who), BucketOf(r, who), BucketOf(f, who), now);
      ChargesBothOrNeither(c, r, now, principal, nonce, who);
      ChargesBothOrNeither(c, f, now, principal, nonce, who);
      if allowed && (who.None? || who == Some(principal)) {
        SameLevelNow(PolicyOf(c, who), BucketOf(r, who), BucketOf(f, who), now);
        LevelIsCapped(PolicyOf(c, who), BucketOf(r, who), now);
        ChargedLooksSame(c, who, Level(PolicyOf(c, who), BucketOf(r, who), now), now);
        assert BucketOf(f', who) == Some(Charged(Level(PolicyOf(c, who), BucketOf(f, who), now), now, None));
      } else {
        assert BucketOf(f', who) == BucketOf(Persist(f), who);
      }
    }
    forall t | t >= now ensures LiveLeases(r', t) == LiveLeases(f', t) {
      assert LiveLeases(r', t) == LiveLeases(r, t) && LiveLeases(f', t) == LiveLeases(f, t);
    }
  }

  lemma SameLevelNow(p: BucketPolicy, a: Option<Bucket>, b: Option<Bucket>, now: int)
    requires SameLevel(p, a, b, now)
    ensures Level(p, a, now) == Level(p, b, now)
  {}

  /** Acquiring a lease touches no bucket. */
  lemma AcquireLeavesBuckets(c: Settings, r: Redis, now: int, token: string, nonce: string)
    requires c.Valid()
    ensures var r' := Acquire(c, r, now, token, nonce).0;
            && r'.principals == r.principals && r'.global == r.global && r'.runId == r.runId
            && r'.marker == Detect(r, now, LeaseQuarantineMs(c), nonce).marker
  {
    hide LeaseMs, LeaseQuarantineMs, LiveLeases;
  }

  /** The lease set that an acquire leaves. */
  function LeasesLeft(c: Settings, r: Redis, now: int, token: string, d: LeaseDecision): (map<string, int>, Option<int>)
    requires c.Valid()
  {
    match d
    case InQuarantine => (r.leases, r.leasesExpire)
    case Full => (LiveLeases(r, now), r.leasesExpire)
    case Acquired => (LiveLeases(r, now)[token := now + LeaseMs(c)], Some(now + 2 * LeaseMs(c)))
  }

  lemma AcquireLeases(c: Settings, r: Redis, now: int, token: string, nonce: string)
    requires c.Valid()
    ensures var (r', d) := Acquire(c, r, now, token, nonce);
            && (r'.leases, r'.leasesExpire) == LeasesLeft(c, r, now, token, d)
            && d == if Until(Detect(r, now, LeaseQuarantineMs(c), nonce)) > now then InQuarantine
                    else if |LiveLeases(r, now)| >= c.limit then Full else Acquired
  {
    hide LeaseMs, LeaseQuarantineMs, Live;
  }

  lemma AcquireSameDecision(c: Settings, r: Redis, f: Redis, now: int, token: string, nonce: string)
    requires c.Valid() && SameView(c, r, f, now)
    ensures Acquire(c, r, now, token, nonce).1 == Acquire(c, f, now, token, nonce).1
  {
    hide LeaseMs, LeaseQuarantineMs, LiveLeases, Acquire, SameLevel;
    AcquireLeases(c, r, now, token, nonce);
    AcquireLeases(c, f, now, token, nonce);
    assert LiveLeases(r, now) == LiveLeases(f, now);
  }

  lemma AcquireSameLeases(c: Settings, r: Redis, f: Redis, now: int, token: string, nonce: string)
    requires c.Valid() && Sound(c, r, now) && SameView(c, r, f, now) && f == Persist(f)
    ensures SameLeases(Acquire(c, r, now, token, nonce).0, Persist(Acquire(c, f, now, token, nonce).0), now)
  {
    AcquireSameDecision(c, r, f, now, token, nonce);
    AcquireLeases(c, r, now, token, nonce);
    AcquireLeases(c, f, now, token, nonce);
    hide LeaseMs, LeaseQuarantineMs, Acquire, SameLevel, Sound, Live, Detect;
    var r', f' := Acquire(c, r, now, token, nonce).0, Persist(Acquire(c, f, now, token, nonce).0);
    forall t | t >= now ensures LiveLeases(r', t) == LiveLeases(f', t) {
      assert LiveLeases(r, t) == LiveLeases(f, t) && LiveLeases(r, now) == LiveLeases(f, now);
      AcquiredLooksSame(c, r, f, now, t, token);
    }
  }

  lemma AcquireSameView(c: Settings, r: Redis, f: Redis, now: int, token: string, nonce: string)
    requires c.Valid() && Sound(c, r, now) && SameView(c, r, f, now) && f == Persist(f)
    ensures Acquire(c, r, now, token, nonce).1 == Acquire(c, f, now, token, nonce).1
    ensures SameView(c, Acquire(c, r, now, token, nonce).0, Persist(Acquire(c, f, now, token, nonce).0), now)
  {
    hide LeaseMs, LeaseQuarantineMs, Sound, SameLevel, SameLeases, Acquire;
    AcquireSameDecision(c, r, f, now, token, nonce);
    AcquireSameLeases(c, r, f, now, token, nonce);
    AcquireLeavesBuckets(c, r, now, token, nonce);
    AcquireLeavesBuckets(c, f, now, token, nonce);
    var r', f' := Acquire(c, r, now, token, nonce).0, Persist(Acquire(c, f, now, token, nonce).0);
    assert f'.principals == f.principals && f'.global == f.global;
    forall who ensures SameLevel(PolicyOf(c, who), BucketOf(r', who), BucketOf(f', who), now) {
      assert SameLevel(PolicyOf(c, who), BucketOf(r, who), BucketOf(f, who), now);
    }
  }

  /** The lease set after an acquire, at a later time, with the set's expiry and without. */
  lemma AcquiredLooksSame(c: Settings, r: Redis, f: Redis, now: int, t: int, token: string)
    requires c.Valid() && Sound(c, r, now) && t >= now && f.leasesExpire.None?
    requires LiveLeases(r, now) == LiveLeases(f, now) && LiveLeases(r, t) == LiveLeases(f, t)
    ensures Live(LiveLeases(r, now), r.leasesExpire, t) == Live(LiveLeases(f, now), None, t)
    ensures var more := LiveLeases(r, now)[token := now + LeaseMs(c)];
            Live(more, Some(now + 2 * LeaseMs(c)), t) == Live(more, None, t)
  {
    QuarantineIsShared(c);
    hide LeaseMs, SoundBucket, LeaseQuarantineMs, RateQuarantineMs;
    var live := LiveLeases(r, now);
    assert forall k :: k in live ==> k in r.leases && live[k] == r.leases[k] <= now + LeaseMs(c);
    if Gone(r.leasesExpire, t) {
      assert LiveLeases(f, t) == map[];
      assert forall k :: k in live && live[k] > t ==> k in LiveLeases(f, t);
    }
  }

  lemma StepSameView(c: Settings, s: System, f: System, e: Event)
    requires c.Valid() && Enabled(e) && Sound(c, s.redis, s.now) && SameView(c, s.redis, f.redis, s.now)
    requires f.redis == Persist(f.redis) && f.now == s.now && f.log == s.log && f.held == s.held
    requires e.Lose? ==> Sound(c, e.redis, s.now)
    ensures AnswerTo(c, s, e) == AnswerTo(c, f, e)
    ensures var s', f' := Step(c, s, e), Step(c, f, e);
            && f'.now == s'.now && f'.log == s'.log && f'.held == s'.held
            && SameView(c, s'.redis, Persist(f'.redis), s'.now)
  {
    match e
    case Tick(ms) => LaterSameView(c, s.redis, f.redis, s.now, s.now + ms);
    case AdmitFor(principal, nonce) =>
      hide SameView, Admit, Sound;
      AdmitSameDecision(c, s.redis, f.redis, s.now, principal, nonce);
      AdmitSameView(c, s.redis, f.redis, s.now, principal, nonce);
    case AcquireFor(token, nonce) =>
      hide SameView, Acquire, Sound;
      AcquireSameView(c, s.redis, f.redis, s.now, token, nonce);
    case GiveBack(token, reached) => ReleaseSameView(c, s.redis, f.redis, s.now, token);
    case Lose(redis) => PersistLooksSame(c, redis, s.now);
  }

  lemma LaterSameView(c: Settings, r: Redis, f: Redis, now: int, later: int)
    requires SameView(c, r, f, now) && later >= now
    ensures SameView(c, r, f, later)
  {
    forall who ensures SameLevel(PolicyOf(c, who), BucketOf(r, who), BucketOf(f, who), later) {
      assert SameLevel(PolicyOf(c, who), BucketOf(r, who), BucketOf(f, who), now);
    }
  }

  lemma ReleaseSameView(c: Settings, r: Redis, f: Redis, now: int, token: string)
    requires SameView(c, r, f, now) && f == Persist(f)
    ensures SameView(c, Release(r, token), Persist(Release(f, token)), now)
  {
    var r', f' := Release(r, token), Persist(Release(f, token));
    forall who ensures SameLevel(PolicyOf(c, who), BucketOf(r', who), BucketOf(f', who), now) {
      assert SameLevel(PolicyOf(c, who), BucketOf(r, who), BucketOf(f, who), now);
      assert BucketOf(r', who) == BucketOf(r, who) && BucketOf(f', who) == BucketOf(Persist(f), who);
    }
    forall t | t >= now ensures LiveLeases(r', t) == LiveLeases(f', t) {
      assert LiveLeases(r', t) == LiveLeases(r, t) - {token};
      assert LiveLeases(f', t) == LiveLeases(f, t) - {token};
    }
  }

  lemma StepKeepsSound(c: Settings, s: System, e: Event)
    requires c.Valid() && Enabled(e) && Sound(c, s.redis, s.now) && (e.Lose? ==> Sound(c, e.redis, s.now))
    ensures Sound(c, Step(c, s, e).redis, Step(c, s, e).now)
  {
    QuarantineIsShared(c);
    var s' := Step(c, s, e);
    forall who ensures SoundBucket(PolicyOf(c, who), TtlMs(c), BucketOf(s'.redis, who), s'.now) {
      hide TtlMs, LeaseMs, RateQuarantineMs, LeaseQuarantineMs, LiveLeases;
      assert SoundBucket(PolicyOf(c, who), TtlMs(c), BucketOf(s.redis, who), s.now);
      if e.AdmitFor? { ChargesBothOrNeither(c, s.redis, s.now, e.principal, e.nonce, who); }
      if e.Lose? { assert SoundBucket(PolicyOf(c, who), TtlMs(c), BucketOf(e.redis, who), s.now); }
    }
    hide SoundBucket, TtlMs, LeaseMs, RateQuarantineMs, LeaseQuarantineMs;
    if e.AdmitFor? { ChargesBothOrNeither(c, s.redis, s.now, e.principal, e.nonce, None); }
  }

  lemma {:induction false} RunSameView(c: Settings, s: System, es: seq<Event>)
    requires c.Valid() && Legal(es) && SoundRun(c, s, es)
    ensures var t, f := After(c, s, es), AfterForever(c, s, es);
            && Sound(c, t.redis, t.now) && SameView(c, t.redis, f.redis, t.now)
            && f.redis == Persist(f.redis) && f.now == t.now && f.log == t.log && f.held == t.held
  {
    hide Sound, SameView, Step, Enabled;
    if es == [] {
      PersistLooksSame(c, s.redis, s.now);
      PersistTwice(s.redis);
    } else {
      var init, e := es[..|es| - 1], es[|es| - 1];
      assert forall i :: 0 <= i < |init| ==> es[..i] == init[..i];
      RunSameView(c, s, init);
      var t, f := After(c, s, init), AfterForever(c, s, init);
      StepSameView(c, t, f, e);
      StepKeepsSound(c, t, e);
      PersistTwice(Step(c, f, e).redis);
    }
  }

  lemma PersistTwice(r: Redis)
    ensures Persist(Persist(r)) == Persist(r)
  {}

  /** On every run, whatever sound keys its losses restore, every request is answered as by a server whose
      keys never expire. */
  lemma ExpiryIsInvisible(c: Settings, s: System, es: seq<Event>, e: Event)
    requires c.Valid() && Legal(es) && SoundRun(c, s, es)
    ensures AnswerTo(c, After(c, s, es), e) == AnswerTo(c, AfterForever(c, s, es), e)
    ensures After(c, s, es).log == AfterForever(c, s, es).log && After(c, s, es).held == AfterForever(c, s, es).held
  {
    hide Sound, SameView, Admit, Acquire;
    RunSameView(c, s, es);
    var t, f := After(c, s, es), AfterForever(c, s, es);
    match e
    case AdmitFor(principal, nonce) => AdmitSameDecision(c, t.redis, f.redis, t.now, principal, nonce);
    case AcquireFor(token, nonce) => AcquireSameView(c, t.redis, f.redis, t.now, token, nonce);
    case _ =>
  }
}
