/** Redis flow control of one search provider: a two-bucket token bucket, a leased concurrency set, and the
    shared generation marker that quarantines both after state loss. Time is server milliseconds. */
module FlowControl {
  import opened Basics

  // ---- configuration ----

  datatype BucketPolicy = BucketPolicy(capacity: nat, refill: real) {
    predicate Valid() { capacity >= 1 && refill > 0.0 }

    /** Seconds to refill an empty bucket. */
    function Horizon(): real
      requires Valid()
    {
      capacity as real / refill
    }
  }

  /** The configured policies of one provider. */
  datatype Settings = Settings(principal: BucketPolicy, global: BucketPolicy, limit: nat, leaseSeconds: real) {
    predicate Valid() { principal.Valid() && global.Valid() && limit >= 1 && leaseSeconds > 0.0 }
  }

  /** Python's round: to the nearest integer, ties to even. */
  function Round(x: real): int {
    var down := x.Floor;
    var rest := x - down as real;
    if rest < 0.5 || (rest == 0.5 && down % 2 == 0) then down else down + 1
  }

  function MaxReal(a: real, b: real): real { if a >= b then a else b }

  function MaxInt(a: int, b: int): int { if a >= b then a else b }

  function MinReal(a: real, b: real): real { if a <= b then a else b }

  function RateHorizon(c: Settings): real
    requires c.Valid()
  {
    MaxReal(c.principal.Horizon(), c.global.Horizon())
  }

  /** _flow_control_horizons: the horizon handed to both limiters. */
  function SharedHorizon(c: Settings): real
    requires c.Valid()
  {
    MaxReal(RateHorizon(c), c.leaseSeconds)
  }

  /** The expiry of a bucket key, the lease length and the two quarantine lengths, in milliseconds. */
  function TtlMs(c: Settings): int
    requires c.Valid()
  {
    MaxInt(1000, Round(2000.0 * RateHorizon(c)))
  }

  function LeaseMs(c: Settings): int
    requires c.Valid()
  {
    MaxInt(1, Round(c.leaseSeconds * 1000.0))
  }

  function RateQuarantineMs(c: Settings): int
    requires c.Valid()
  {
    MaxInt(1, Round(MaxReal(RateHorizon(c), SharedHorizon(c)) * 1000.0))
  }

  function LeaseQuarantineMs(c: Settings): int
    requires c.Valid()
  {
    MaxInt(1, Round(MaxReal(c.leaseSeconds, SharedHorizon(c)) * 1000.0))
  }

  // ---- Redis state ----

  /** A bucket key; `expires` is None for a key without a time to live. */
  datatype Bucket = Bucket(tokens: real, updated: int, expires: Option<int>)

  datatype Marker = Marker(generation: string, runId: string, until: int)

  datatype Redis = Redis(
    runId: string,
    marker: Option<Marker>,
    principals: map<string, Bucket>,
    global: Option<Bucket>,
    leases: map<string, int>,     // token -> score, the time the lease ends
    leasesExpire: Option<int>)

  function PrincipalBucket(r: Redis, principal: string): Option<Bucket> {
    if principal in r.principals then Some(r.principals[principal]) else None
  }

  /** Tokens a bucket gains in some milliseconds. */
  function Gain(p: BucketPolicy, ms: int): real { p.refill * (ms as real) / 1000.0 }

  /** Whether a key with this expiry is gone. */
  predicate Gone(expires: Option<int>, now: int) { expires.Some? && now > expires.value }

  /** The script's `state` function: a missing or expired key counts as full. */
  function Level(p: BucketPolicy, b: Option<Bucket>, now: int): real {
    if b.None? || Gone(b.value.expires, now) then p.capacity as real
    else MinReal(p.capacity as real, b.value.tokens + Gain(p, MaxInt(0, now - b.value.updated)))
  }

  predicate Current(r: Redis) { r.marker.Some? && r.marker.value.runId == r.runId }

  /** Both scripts start a new generation, quarantined, when the marker is missing or of another server run. */
  function Detect(r: Redis, now: int, quarantineMs: int, nonce: string): Redis {
    if Current(r) then r else r.(marker := Some(Marker(nonce, r.runId, now + quarantineMs)))
  }

  function Until(r: Redis): int
    requires r.marker.Some?
  {
    r.marker.value.until
  }

  datatype Decision = Allowed | Limited(delayMs: int) | Quarantined(waitMs: int)

  /** The smallest integer not below a real. */
  function Ceil(x: real): int { -((-x).Floor) }

  /** Seconds until a bucket holds one unit. */
  function Wait(p: BucketPolicy, level: real): real
    requires p.Valid()
  {
    if level < 1.0 then (1.0 - level) / p.refill else 0.0
  }

  /** The token-bucket script, with cost 1. */
  function Admit(c: Settings, r: Redis, now: int, principal: string, nonce: string): (Redis, Decision)
    requires c.Valid()
  {
    var d := Detect(r, now, RateQuarantineMs(c), nonce);
    if Until(d) > now then (d, Quarantined(Until(d) - now))
    else
      var mine := Level(c.principal, PrincipalBucket(d, principal), now);
      var all := Level(c.global, d.global, now);
      if mine < 1.0 || all < 1.0 then
        (d, Limited(Ceil(MaxReal(Wait(c.principal, mine), Wait(c.global, all)) * 1000.0)))
      else
        (d.(principals := d.principals[principal := Bucket(mine - 1.0, now, Some(now + TtlMs(c)))],
            global := Some(Bucket(all - 1.0, now, Some(now + TtlMs(c))))), Allowed)
  }

  datatype LeaseDecision = Acquired | Full | InQuarantine

  /** The leases whose end is still ahead, in a set whose key has not expired. */
  function LiveLeases(r: Redis, now: int): map<string, int> {
    Live(r.leases, r.leasesExpire, now)
  }

  function Live(leases: map<string, int>, expires: Option<int>, now: int): map<string, int> {
    if Gone(expires, now) then map[] else map token | token in leases && leases[token] > now :: leases[token]
  }

  /** The concurrency-acquire script. */
  function Acquire(c: Settings, r: Redis, now: int, token: string, nonce: string): (Redis, LeaseDecision)
    requires c.Valid()
  {
    var d := Detect(r, now, LeaseQuarantineMs(c), nonce);
    if Until(d) > now then (d, InQuarantine)
    else
      var live := LiveLeases(d, now);
      if |live| >= c.limit then (d.(leases := live), Full)
      else (d.(leases := live[token := now + LeaseMs(c)], leasesExpire := Some(now + 2 * LeaseMs(c))), Acquired)
  }

  /** The concurrency-release script. */
  function Release(r: Redis, token: string): Redis { r.(leases := r.leases - {token}) }

  // ---- the scripts, statement by statement ----

  class FlowScripts {
    const settings: Settings
    var runId: string
    var marker: Option<Marker>
    var principals: map<string, Bucket>
    var global: Option<Bucket>
    var leases: map<string, int>
    var leasesExpire: Option<int>

    constructor (settings: Settings, runId: string)
      ensures this.settings == settings && State() == Redis(runId, None, map[], None, map[], None)
    {
      this.settings := settings;
      this.runId := runId;
      marker, principals, global, leases, leasesExpire := None, map[], None, map[], None;
    }

    ghost function State(): Redis
      reads this
    {
      Redis(runId, marker, principals, global, leases, leasesExpire)
    }

    method EnterGeneration(now: int, quarantineMs: int, nonce: string) returns (until: int)
      modifies this`marker
      ensures State() == Detect(old(State()), now, quarantineMs, nonce)
      ensures marker.Some? && until == marker.value.until
      ensures marker == if old(marker).Some? && old(marker).value.runId == runId then old(marker)
                        else Some(Marker(nonce, runId, now + quarantineMs))
    {
      if marker.None? {
        marker := Some(Marker(nonce, runId, now + quarantineMs));
      } else if marker.value.runId != runId {
        marker := Some(Marker(nonce, runId, now + quarantineMs));
      }
      until := marker.value.until;
    }

    method TokenBucket(now: int, principal: string, nonce: string) returns (decision: Decision)
      requires settings.Valid()
      modifies this`marker, this`principals, this`global
      ensures (State(), decision) == Admit(settings, old(State()), now, principal, nonce)
    {
      var until := EnterGeneration(now, RateQuarantineMs(settings), nonce);
      if until > now {
        return Quarantined(until - now);
      }
      var mine := Level(settings.principal, if principal in principals then Some(principals[principal]) else None, now);
      var all := Level(settings.global, global, now);
      if mine < 1.0 || all < 1.0 {
        var principalWait, globalWait := 0.0, 0.0;
        if mine < 1.0 { principalWait := (1.0 - mine) / settings.principal.refill; }
        if all < 1.0 { globalWait := (1.0 - all) / settings.global.refill; }
        return Limited(Ceil(MaxReal(principalWait, globalWait) * 1000.0));
      }
      var expires := Some(now + TtlMs(settings));
      principals := principals[principal := Bucket(mine - 1.0, now, expires)];
      global := Some(Bucket(all - 1.0, now, expires));
      decision := Allowed;
    }

    method ConcurrencyAcquire(now: int, token: string, nonce: string) returns (decision: LeaseDecision)
      requires settings.Valid()
      modifies this`marker, this`leases, this`leasesExpire
      ensures (State(), decision) == Acquire(settings, old(State()), now, token, nonce)
      ensures decision.Acquired? ==>
        && token in leases && leases[token] == now + LeaseMs(settings)
        && leasesExpire == Some(now + 2 * LeaseMs(settings))
        && |old(LiveLeases(State(), now))| < settings.limit
    {
      var until := EnterGeneration(now, LeaseQuarantineMs(settings), nonce);
      if until > now {
        return InQuarantine;
      }
      leases := LiveLeases(Redis(runId, marker, principals, global, leases, leasesExpire), now);
      if |leases| >= settings.limit {
        return Full;
      }
      leases := leases[token := now + LeaseMs(settings)];
      leasesExpire := Some(now + 2 * LeaseMs(settings));
      decision := Acquired;
    }

    method ConcurrencyRelease(token: string)
      modifies this`leases
      ensures token !in leases && leases.Keys == old(leases).Keys - {token}
      ensures forall k :: k in leases ==> leases[k] == old(leases)[k]
      ensures State() == Release(old(State()), token)
    {
      leases := leases - {token};
    }
  }
}
