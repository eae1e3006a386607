/** Bounds on admissions and leases over every run of the flow-control scripts, through any state losses. */
module FlowSafety {
  import opened Basics
  import opened FlowControl

  // ---- arithmetic of the configuration ----

  lemma GainAdds(p: BucketPolicy, a: int, b: int)
    ensures Gain(p, a + b) == Gain(p, a) + Gain(p, b)
  {
    assert (a + b) as real == a as real + b as real;
  }

  lemma GainMonotone(p: BucketPolicy, a: int, b: int)
    requires p.Valid() && a <= b
    ensures Gain(p, a) <= Gain(p, b)
  {
    GainAdds(p, a, b - a);
    assert p.refill * ((b - a) as real) >= 0.0;
  }

  /** Rounding is monotone and moves a value by at most a half. */
  lemma RoundFacts(x: real, y: real)
    ensures x <= y ==> Round(x) <= Round(y)
    ensures x - 0.5 <= Round(x) as real <= x + 0.5
  {}

  /** Both limiters quarantine for the same time, and never for less than one lease. */
  lemma QuarantineIsShared(c: Settings)
    requires c.Valid()
    ensures RateQuarantineMs(c) == LeaseQuarantineMs(c) >= LeaseMs(c) >= 1
  {
    var shared := SharedHorizon(c);
    RoundFacts(c.leaseSeconds * 1000.0, shared * 1000.0);
  }

  /** Rounding goes to the nearest integer and, halfway, to the even one. */
  lemma RoundIsNearest(n: int, x: real)
    ensures n as real - 0.5 < x < n as real + 0.5 ==> Round(x) == n
    ensures x == n as real + 0.5 ==> Round(x) == if n % 2 == 0 then n else n + 1
  {}

  /** The quarantine of both limiters is the longest of the three horizons (the refill of a principal's bucket, that of
      the global one, and a lease), in milliseconds, rounded, and at least one; so are the lease and, doubled and at
      least a second, the life of a bucket key. */
  lemma TimesAreRounded(c: Settings, longest: real, refill: real)
    requires c.Valid()
    requires refill >= c.principal.capacity as real / c.principal.refill
    requires refill >= c.global.capacity as real / c.global.refill
    requires || refill == c.principal.capacity as real / c.principal.refill
             || refill == c.global.capacity as real / c.global.refill
    requires (longest == refill || longest == c.leaseSeconds) && longest >= refill && longest >= c.leaseSeconds
    ensures RateQuarantineMs(c) == LeaseQuarantineMs(c) == MaxInt(1, Round(longest * 1000.0))
    ensures LeaseMs(c) == MaxInt(1, Round(c.leaseSeconds * 1000.0))
    ensures TtlMs(c) == MaxInt(1000, Round(2000.0 * refill))
  {
    hide Round;
    assert RateHorizon(c) == refill && SharedHorizon(c) == longest;
  }

  /** A bucket untouched for the life of its key is full whatever it held. */
  lemma TtlFills(c: Settings)
    requires c.Valid()
    ensures Gain(c.principal, TtlMs(c)) >= c.principal.capacity as real
    ensures Gain(c.global, TtlMs(c)) >= c.global.capacity as real
  {
    var h := RateHorizon(c);
    RoundFacts(2000.0 * h, 0.0);
    assert TtlMs(c) as real >= 1000.0 * h;
    HorizonFills(c.principal, h, TtlMs(c));
    HorizonFills(c.global, h, TtlMs(c));
  }

  lemma HorizonFills(p: BucketPolicy, h: real, ms: int)
    requires p.Valid() && h >= p.Horizon() && ms as real >= 1000.0 * h
    ensures Gain(p, ms) >= p.capacity as real
  {
    assert p.refill * p.Horizon() == p.capacity as real;
    assert p.refill * (ms as real) >= p.refill * (1000.0 * p.Horizon());
  }

  /** The proviso on rounding: the quarantine refills an empty bucket. */
  predicate Covers(c: Settings, p: BucketPolicy)
    requires c.Valid()
  {
    p.refill * RateQuarantineMs(c) as real / 1000.0 >= p.capacity as real
  }

  lemma CoversByGain(c: Settings, p: BucketPolicy)
    requires c.Valid()
    ensures Covers(c, p) <==> Gain(p, RateQuarantineMs(c)) >= p.capacity as real
  {
    hide RateQuarantineMs;
  }

  /** It holds whenever the lease is the longest horizon by half a millisecond, or the bucket's own horizon
      is a whole number of milliseconds. */
  lemma CoversWhen(c: Settings, p: BucketPolicy)
    requires c.Valid() && (p == c.principal || p == c.global)
    requires || p.Horizon() * 1000.0 + 0.5 <= SharedHorizon(c) * 1000.0
             || (p.Horizon() * 1000.0).Floor as real == p.Horizon() * 1000.0
    ensures Covers(c, p)
  {
    var h, shared := p.Horizon() * 1000.0, SharedHorizon(c) * 1000.0;
    RoundFacts(h, shared);
    assert RateQuarantineMs(c) as real >= h;
    HorizonFills(p, p.Horizon(), RateQuarantineMs(c));
    hide Covers, Gain;
    CoversByGain(c, p);
  }

  // ---- the ideal bucket: never lost, never expired ----

  /** What an ideal bucket, full at first, holds right after admissions at the given times. */
  function Balance(p: BucketPolicy, times: seq<int>): real
    decreases |times|, 0
  {
    if times == [] then p.capacity as real
    else Ideal(p, times[..|times| - 1], times[|times| - 1]) - 1.0
  }

  /** What it holds at a later time. */
  function Ideal(p: BucketPolicy, times: seq<int>, now: int): real
    decreases |times|, 1
  {
    if times == [] then p.capacity as real
    else MinReal(p.capacity as real, Balance(p, times) + Gain(p, now - times[|times| - 1]))
  }

  /** Every admission found a unit in the ideal bucket, and times never go back. */
  predicate Paid(p: BucketPolicy, times: seq<int>) {
    times != [] ==>
      && Paid(p, times[..|times| - 1]) && Balance(p, times) >= 0.0
      && (|times| >= 2 ==> times[|times| - 2] <= times[|times| - 1])
  }

  predicate NotAfter(times: seq<int>, now: int) { times != [] ==> times[|times| - 1] <= now }

  /** Admissions within a closed time window. */
  function CountIn(times: seq<int>, from: int, to: int): nat {
    if times == [] then 0
    else CountIn(times[..|times| - 1], from, to) + if from <= times[|times| - 1] <= to then 1 else 0
  }

  lemma {:induction false} CountsLast(p: BucketPolicy, times: seq<int>, from: int, to: int)
    requires p.Valid() && Paid(p, times) && NotAfter(times, to) && from <= to
    ensures CountIn(times, from, to) > 0 ==>
              && times[|times| - 1] >= from
              && CountIn(times, from, to) as real <=
                 p.capacity as real - Balance(p, times) + Gain(p, times[|times| - 1] - from)
  {
    if times != [] {
      var init, last := times[..|times| - 1], times[|times| - 1];
      CountsLast(p, init, from, to);
      if last >= from {
        if CountIn(init, from, to) > 0 {
          GainAdds(p, last - init[|init| - 1], init[|init| - 1] - from);
        } else {
          GainMonotone(p, 0, last - from);
        }
      }
    }
  }

  /** The token-bucket law: paid admissions in any window are at most capacity plus refill over the window. */
  lemma {:induction false} WindowBound(p: BucketPolicy, times: seq<int>, from: int, to: int)
    requires p.Valid() && Paid(p, times) && from <= to
    ensures CountIn(times, from, to) as real <= p.capacity as real + Gain(p, to - from)
  {
    GainMonotone(p, 0, to - from);
    if times != [] {
      var last := times[|times| - 1];
      if last > to {
        WindowBound(p, times[..|times| - 1], from, to);
      } else {
        CountsLast(p, times, from, to);
        if CountIn(times, from, to) > 0 { GainMonotone(p, last - from, to - from); }
      }
    }
  }

  // ---- runs ----

  datatype Admission = Admission(time: int, principal: string)

  /** The server, its clock, and what clients hold: admissions granted and leases not yet given back. */
  datatype System = System(now: int, redis: Redis, log: seq<Admission>, held: map<string, int>)

  datatype Event =
    | Tick(ms: nat)
    | AdmitFor(principal: string, nonce: string)
    | AcquireFor(token: string, nonce: string)
    | GiveBack(token: string, reached: bool)   // the client forgets its lease; the script may not be reached
    | Lose(redis: Redis)                       // flush, restart or restore: any keys, but no current marker

  /** A state loss is one the marker shows: it is missing or of another server run. */
  predicate Enabled(e: Event) { e.Lose? ==> !Current(e.redis) }

  function Step(c: Settings, s: System, e: Event): System
    requires c.Valid()
  {
    match e
    case Tick(ms) => s.(now := s.now + ms)
    case AdmitFor(principal, nonce) =>
      var (redis, decision) := Admit(c, s.redis, s.now, principal, nonce);
      s.(redis := redis, log := if decision.Allowed? then s.log + [Admission(s.now, principal)] else s.log)
    case AcquireFor(token, nonce) =>
      if token in s.held then s
      else
        var (redis, decision) := Acquire(c, s.redis, s.now, token, nonce);
        s.(redis := redis, held := if decision.Acquired? then s.held[token := s.now + LeaseMs(c)] else s.held)
    case GiveBack(token, reached) =>
      s.(held := s.held - {token}, redis := if reached then Release(s.redis, token) else s.redis)
    case Lose(redis) => s.(redis := redis)
  }

  /** Start-up: any keys but no current marker, and no client holding anything. */
  predicate IsStart(s: System) { !Current(s.redis) && s.log == [] && s.held == map[] }

  ghost predicate Legal(es: seq<Event>) { forall i :: 0 <= i < |es| ==> Enabled(es[i]) }

  /** The state after a run of events. */
  function After(c: Settings, s: System, es: seq<Event>): System
    requires c.Valid()
  {
    if es == [] then s else Step(c, After(c, s, es[..|es| - 1]), es[|es| - 1])
  }

  /** The times of the admissions charged to the global bucket, or to one principal's. */
  function Times(log: seq<Admission>, who: Option<string>): seq<int> {
    if log == [] then []
    else Times(log[..|log| - 1], who)
         + if who == None || who == Some(log[|log| - 1].principal) then [log[|log| - 1].time] else []
  }

  function PolicyOf(c: Settings, who: Option<string>): BucketPolicy { if who.None? then c.global else c.principal }

  function BucketOf(r: Redis, who: Option<string>): Option<Bucket> {
    if who.None? then r.global else PrincipalBucket(r, who.value)
  }

  /** From t0 on the real bucket never holds more than the ideal one. */
  ghost predicate Below(p: BucketPolicy, b: Option<Bucket>, times: seq<int>, t0: int) {
    forall t :: t >= t0 ==> Level(p, b, t) <= Ideal(p, times, t)
  }

  /** From when on the scripts may admit, while the marker is current. */
  function Open(s: System): int
    requires Current(s.redis)
  {
    MaxInt(s.now, Until(s.redis))
  }

  ghost predicate BucketInv(c: Settings, s: System, who: Option<string>)
    requires c.Valid()
  {
    var p := PolicyOf(c, who);
    var times := Times(s.log, who);
    && Paid(p, times) && NotAfter(times, s.now)
    && (Current(s.redis) ==> Below(p, BucketOf(s.redis, who), times, Open(s)))
  }

  /** A paid ideal bucket is full again once it could have refilled since the last admission. */
  lemma IdealRefills(p: BucketPolicy, times: seq<int>, now: int, ms: int, t: int)
    requires p.Valid() && Paid(p, times) && NotAfter(times, now) && Gain(p, ms) >= p.capacity as real && t >= now + ms
    ensures Ideal(p, times, t) == p.capacity as real
  {
    if times != [] { GainMonotone(p, ms, t - times[|times| - 1]); }
  }

  /** Entering a generation: outside quarantine the real bucket is below the ideal one, lost or not. */
  lemma DetectBelow(c: Settings, s: System, who: Option<string>, nonce: string)
    requires c.Valid() && Covers(c, PolicyOf(c, who)) && BucketInv(c, s, who)
    ensures var d := Detect(s.redis, s.now, RateQuarantineMs(c), nonce);
            Below(PolicyOf(c, who), BucketOf(d, who), Times(s.log, who), MaxInt(s.now, Until(d)))
  {
    CoversByGain(c, PolicyOf(c, who));
    hide Covers, Gain, Level, Ideal;
    var p, times := PolicyOf(c, who), Times(s.log, who);
    var d := Detect(s.redis, s.now, RateQuarantineMs(c), nonce);
    if !Current(s.redis) {
      forall t | t >= MaxInt(s.now, Until(d)) ensures Level(p, BucketOf(d, who), t) <= Ideal(p, times, t) {
        IdealRefills(p, times, s.now, RateQuarantineMs(c), t);
      }
    }
  }

  /** Charging one unit at a time the real bucket was below the ideal one keeps it below for good, also after
      its key expires. */
  lemma ChargeBelow(p: BucketPolicy, level: real, times: seq<int>, now: int, ttl: int)
    requires p.Valid() && Paid(p, times) && NotAfter(times, now) && 1.0 <= level <= Ideal(p, times, now)
    requires Gain(p, ttl) >= p.capacity as real
    ensures Paid(p, times + [now]) && Below(p, Some(Bucket(level - 1.0, now, Some(now + ttl))), times + [now], now)
  {
    var times' := times + [now];
    assert times'[..|times|] == times;
    forall t | t >= now ensures Level(p, Some(Bucket(level - 1.0, now, Some(now + ttl))), t) <= Ideal(p, times', t) {
      if t > now + ttl { IdealRefills(p, times', now, ttl, t); }
    }
  }

  function Charged(level: real, now: int, expires: Option<int>): Bucket { Bucket(level - 1.0, now, expires) }

  /** An admission, possible only outside quarantine, takes one unit from the principal's and from the global
      bucket, each of which held one; any other answer takes nothing; no other bucket and no lease changes. */
  lemma ChargesBothOrNeither(c: Settings, r: Redis, now: int, principal: string, nonce: string, who: Option<string>)
    requires c.Valid()
    ensures var (r', decision) := Admit(c, r, now, principal, nonce);
            var d := Detect(r, now, RateQuarantineMs(c), nonce);
            var p := PolicyOf(c, who);
            && r'.leases == r.leases && r'.leasesExpire == r.leasesExpire && r'.runId == r.runId
            && r'.marker == d.marker && (decision.Quarantined? <==> Until(d) > now)
            && (if decision.Allowed? && (who.None? || who == Some(principal))
                then && Level(p, BucketOf(r, who), now) >= 1.0
                     && BucketOf(r', who) == Some(Charged(Level(p, BucketOf(r, who), now), now, Some(now + TtlMs(c))))
                     && Level(p, BucketOf(r', who), now) == Level(p, BucketOf(r, who), now) - 1.0
                else BucketOf(r', who) == BucketOf(r, who))
  {
    hide RateQuarantineMs, Wait, Ceil;
    assert TtlMs(c) >= 1000 by { hide RateHorizon; }
    hide TtlMs;
    assert Gain(PolicyOf(c, who), 0) == 0.0;
  }

  lemma TimesOfNext(log: seq<Admission>, a: Admission, who: Option<string>)
    ensures Times(log + [a], who) == Times(log, who) + (if who.None? || who == Some(a.principal) then [a.time] else [])
  {
    assert (log + [a])[..|log|] == log;
  }

  lemma AdmitKeepsBucket(c: Settings, s: System, principal: string, nonce: string, who: Option<string>)
    requires c.Valid() && Covers(c, PolicyOf(c, who)) && BucketInv(c, s, who)
    ensures BucketInv(c, Step(c, s, AdmitFor(principal, nonce)), who)
  {
    hide Below, Gain, Covers, TtlMs, RateQuarantineMs, Admit, Level, Paid, Ideal, Times;
    var times := Times(s.log, who);
    DetectBelow(c, s, who, nonce);
    ChargesBothOrNeither(c, s.redis, s.now, principal, nonce, who);
    TimesOfNext(s.log, Admission(s.now, principal), who);
    assert times + [] == times;
    if Admit(c, s.redis, s.now, principal, nonce).1.Allowed? && (who.None? || who == Some(principal)) {
      ChargedStaysBelow(c, who, BucketOf(s.redis, who), times, s.now);
    }
  }

  lemma ChargedStaysBelow(c: Settings, who: Option<string>, b: Option<Bucket>, times: seq<int>, now: int)
    requires c.Valid() && Below(PolicyOf(c, who), b, times, now)
    requires Paid(PolicyOf(c, who), times) && NotAfter(times, now)
    requires Level(PolicyOf(c, who), b, now) >= 1.0
    ensures Paid(PolicyOf(c, who), times + [now])
    ensures var p := PolicyOf(c, who);
            Below(p, Some(Charged(Level(p, b, now), now, Some(now + TtlMs(c)))), times + [now], now)
  {
    hide Below, Gain, TtlMs, Level, Paid, Ideal;
    BelowNow(PolicyOf(c, who), b, times, now);
    TtlFills(c);
    ChargeBelow(PolicyOf(c, who), Level(PolicyOf(c, who), b, now), times, now, TtlMs(c));
  }

  lemma BelowNow(p: BucketPolicy, b: Option<Bucket>, times: seq<int>, t0: int)
    requires Below(p, b, times, t0)
    ensures Level(p, b, t0) <= Ideal(p, times, t0)
  {}

  lemma AcquireKeepsBucket(c: Settings, s: System, token: string, nonce: string, who: Option<string>)
    requires c.Valid() && Covers(c, PolicyOf(c, who)) && BucketInv(c, s, who)
    ensures BucketInv(c, Step(c, s, AcquireFor(token, nonce)), who)
  {
    hide Below, Covers, LeaseMs, RateQuarantineMs, LeaseQuarantineMs, LiveLeases, Paid;
    QuarantineIsShared(c);
    DetectBelow(c, s, who, nonce);
  }

  lemma StepKeepsBucket(c: Settings, s: System, e: Event, who: Option<string>)
    requires c.Valid() && Covers(c, PolicyOf(c, who)) && BucketInv(c, s, who) && Enabled(e)
    ensures BucketInv(c, Step(c, s, e), who)
  {
    match e
    case AdmitFor(principal, nonce) => AdmitKeepsBucket(c, s, principal, nonce, who);
    case AcquireFor(token, nonce) => AcquireKeepsBucket(c, s, token, nonce, who);
    case _ => hide Covers, Paid, Level, Ideal;
  }

  // ---- leases ----

  function Unexpired(held: map<string, int>, now: int): set<string> { set token | token in held && held[token] > now }

  ghost predicate LeaseInv(c: Settings, s: System)
    requires c.Valid()
  {
    && |Unexpired(s.held, s.now)| <= c.limit
    && (forall token :: token in s.held ==> s.held[token] <= s.now + LeaseMs(c))
    && (Current(s.redis) ==> Tracked(s.redis, s.held, Open(s)))
  }

  /** From t0 on, every unexpired held lease is in the server's set with the same end. */
  ghost predicate Tracked(r: Redis, held: map<string, int>, t0: int) {
    forall token :: token in held && held[token] > t0 ==>
      && token in r.leases && r.leases[token] == held[token]
      && (r.leasesExpire.Some? ==> held[token] <= r.leasesExpire.value)
  }

  lemma DetectTracks(c: Settings, s: System, quarantineMs: int, nonce: string)
    requires c.Valid() && LeaseInv(c, s) && quarantineMs >= LeaseMs(c)
    ensures var d := Detect(s.redis, s.now, quarantineMs, nonce); Tracked(d, s.held, MaxInt(s.now, Until(d)))
  {}

  /** A new lease is granted only next to fewer than `limit` unexpired held ones. */
  lemma AcquireCounts(c: Settings, r: Redis, held: map<string, int>, now: int, token: string, end: int)
    requires Tracked(r, held, now) && |LiveLeases(r, now)| < c.limit
    ensures |Unexpired(held[token := end], now)| <= c.limit
  {
    assert Unexpired(held, now) <= LiveLeases(r, now).Keys;
    SubsetSize(Unexpired(held, now), LiveLeases(r, now).Keys);
    SubsetSize(Unexpired(held[token := end], now), Unexpired(held, now) + {token});
  }

  /** The set with the new lease tracks what is held. */
  lemma AcquireTracks(r: Redis, held: map<string, int>, now: int, token: string, lease: int)
    requires Tracked(r, held, now) && (forall k :: k in held ==> held[k] <= now + lease) && lease >= 1
    ensures Tracked(r.(leases := LiveLeases(r, now)), held, now)
    ensures Tracked(r.(leases := LiveLeases(r, now)[token := now + lease], leasesExpire := Some(now + 2 * lease)),
                    held[token := now + lease], now)
  {}

  lemma AcquireKeepsLeases(c: Settings, s: System, token: string, nonce: string)
    requires c.Valid() && LeaseInv(c, s)
    ensures LeaseInv(c, Step(c, s, AcquireFor(token, nonce)))
  {
    hide LeaseMs, LeaseQuarantineMs, RateQuarantineMs, Tracked, LiveLeases, Unexpired;
    QuarantineIsShared(c);
    DetectTracks(c, s, LeaseQuarantineMs(c), nonce);
    var d := Detect(s.redis, s.now, LeaseQuarantineMs(c), nonce);
    if token !in s.held && Until(d) <= s.now {
      AcquireTracks(d, s.held, s.now, token, LeaseMs(c));
      if |LiveLeases(d, s.now)| < c.limit { AcquireCounts(c, d, s.held, s.now, token, s.now + LeaseMs(c)); }
    }
  }

  lemma SubsetSize<T>(a: set<T>, b: set<T>)
    requires a <= b
    ensures |a| <= |b|
  {
    assert b == a + (b - a);
  }

  lemma StepKeepsLeases(c: Settings, s: System, e: Event)
    requires c.Valid() && LeaseInv(c, s) && Enabled(e)
    ensures LeaseInv(c, Step(c, s, e))
  {
    var s' := Step(c, s, e);
    match e
    case Tick(ms) => SubsetSize(Unexpired(s'.held, s'.now), Unexpired(s.held, s.now));
    case AdmitFor(principal, nonce) => QuarantineIsShared(c); DetectTracks(c, s, RateQuarantineMs(c), nonce);
    case AcquireFor(token, nonce) => AcquireKeepsLeases(c, s, token, nonce);
    case GiveBack(token, reached) => SubsetSize(Unexpired(s'.held, s'.now), Unexpired(s.held, s.now));
    case Lose(_) =>
  }
}
