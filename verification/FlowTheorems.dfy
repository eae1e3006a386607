/** The promises of the flow control, for every run. */
module FlowTheorems {
  import opened Basics
  import opened FlowControl
  import opened FlowSafety

  lemma {:induction false} RunKeepsBucket(c: Settings, s: System, es: seq<Event>, who: Option<string>)
    requires c.Valid() && IsStart(s) && Legal(es) && Covers(c, PolicyOf(c, who))
    ensures BucketInv(c, After(c, s, es), who)
  {
    if es != [] {
      RunKeepsBucket(c, s, es[..|es| - 1], who);
      StepKeepsBucket(c, After(c, s, es[..|es| - 1]), es[|es| - 1], who);
    }
  }

  lemma {:induction false} RunKeepsLeases(c: Settings, s: System, es: seq<Event>)
    requires c.Valid() && IsStart(s) && Legal(es)
    ensures LeaseInv(c, After(c, s, es))
  {
    if es == [] {
      assert Unexpired(s.held, s.now) == {};
    } else {
      RunKeepsLeases(c, s, es[..|es| - 1]);
      StepKeepsLeases(c, After(c, s, es[..|es| - 1]), es[|es| - 1]);
    }
  }

  /** Admissions in a window are at most the capacity plus the refill over the window. */
  predicate Bounded(c: Settings, s: System, es: seq<Event>, who: Option<string>, from: int, to: int)
    requires c.Valid()
  {
    CountIn(Times(After(c, s, es).log, who), from, to) as real
      <= PolicyOf(c, who).capacity as real + PolicyOf(c, who).refill * (to - from) as real / 1000.0
  }

  lemma BoundedByGain(c: Settings, s: System, es: seq<Event>, who: Option<string>, from: int, to: int)
    requires c.Valid()
    ensures Bounded(c, s, es, who, from, to) <==>
              CountIn(Times(After(c, s, es).log, who), from, to) as real
                <= PolicyOf(c, who).capacity as real + Gain(PolicyOf(c, who), to - from)
  {
    hide After, Times, CountIn;
  }

  /** Times that are too many break the bound. */
  lemma Exceeds(c: Settings, s: System, es: seq<Event>, who: Option<string>, from: int, to: int, times: seq<int>)
    requires c.Valid() && Times(After(c, s, es).log, who) == times
    requires CountIn(times, from, to) as real > PolicyOf(c, who).capacity as real + Gain(PolicyOf(c, who), to - from)
    ensures !Bounded(c, s, es, who, from, to)
  {
    hide After, Times, CountIn, Gain, Bounded;
    BoundedByGain(c, s, es, who, from, to);
  }

  /** In every run, through any flushes and restarts, and in every window, both the global and every
      principal's admissions are bounded, provided the rounded quarantine covers that bucket's refill. */
  lemma AdmissionsAreBounded(c: Settings, s: System, es: seq<Event>, who: Option<string>, from: int, to: int)
    requires c.Valid() && IsStart(s) && Legal(es) && from <= to && Covers(c, PolicyOf(c, who))
    ensures Bounded(c, s, es, who, from, to)
  {
    hide After, Times, CountIn, Gain, Bounded;
    RunKeepsBucket(c, s, es, who);
    WindowBound(PolicyOf(c, who), Times(After(c, s, es).log, who), from, to);
    BoundedByGain(c, s, es, who, from, to);
  }

  /** Across any number of clients and any state losses, unexpired leases that were not given back never
      exceed the global limit, with no proviso. */
  lemma LeasesAreBounded(c: Settings, s: System, es: seq<Event>)
    requires c.Valid() && IsStart(s) && Legal(es)
    ensures |Unexpired(After(c, s, es).held, After(c, s, es).now)| <= c.limit
  {
    RunKeepsLeases(c, s, es);
  }

  // ---- the proviso is needed: a quarantine rounded short over-admits ----

  const BLANK := Redis("run", None, map[], None, map[], None)

  function Name(k: nat): string { seq(k, _ => 'u') }

  /** k admissions for k different principals, with no time passing. */
  function Burst(k: nat): seq<Event> {
    if k == 0 then [] else Burst(k - 1) + [AdmitFor(Name(k - 1), "g")]
  }

  lemma {:induction false} AfterConcat(c: Settings, s: System, a: seq<Event>, b: seq<Event>)
    requires c.Valid()
    ensures After(c, s, a + b) == After(c, After(c, s, a), b)
  {
    if b == [] {
      assert a + b == a;
    } else {
      var init := b[..|b| - 1];
      assert (a + b)[..|a + b| - 1] == a + init;
      AfterConcat(c, s, a, init);
    }
  }

  /** A system just out of quarantine with full buckets. */
  predicate Fresh(s: System) {
    Current(s.redis) && Until(s.redis) <= s.now && s.redis.principals == map[] && s.redis.global == None
  }

  function Repeat(x: int, n: nat): seq<int> { seq(n, _ => x) }

  /** One admission for a principal not seen before, with a unit in the global bucket. */
  lemma OneAdmitted(c: Settings, s: System, name: string)
    requires c.Valid() && Current(s.redis) && Until(s.redis) <= s.now && name !in s.redis.principals
    requires Level(c.global, s.redis.global, s.now) >= 1.0
    ensures var t := Step(c, s, AdmitFor(name, "g"));
            && t.now == s.now && t.redis.marker == s.redis.marker && t.redis.runId == s.redis.runId
            && Level(c.global, t.redis.global, t.now) == Level(c.global, s.redis.global, s.now) - 1.0
            && t.redis.principals.Keys == s.redis.principals.Keys + {name}
            && t.log == s.log + [Admission(s.now, name)]
  {
    hide RateQuarantineMs;
    assert TtlMs(c) >= 1000 by { hide RateHorizon; }
    hide TtlMs;
    assert Gain(c.global, 0) == 0.0;
  }

  /** What k admissions for new principals leave. */
  ghost predicate Admitted(c: Settings, s: System, t: System, k: nat) {
    && t.now == s.now && Current(t.redis) && Until(t.redis) <= t.now
    && Level(c.global, t.redis.global, t.now) == (c.global.capacity - k) as real
    && (forall x :: x in t.redis.principals ==> |x| < k)
    && Times(t.log, None) == Times(s.log, None) + Repeat(s.now, k)
  }

  lemma OneMoreOfTheBurst(c: Settings, s: System, t: System, k: nat)
    requires c.Valid() && k < c.global.capacity && Admitted(c, s, t, k)
    ensures Admitted(c, s, Step(c, t, AdmitFor(Name(k), "g")), k + 1)
  {
    hide Step, Level, Times, Repeat;
    assert |Name(k)| == k;
    OneAdmitted(c, t, Name(k));
    TimesOfNext(t.log, Admission(s.now, Name(k)), None);
    RepeatOnce(s.now, k);
  }

  lemma RepeatOnce(x: int, n: nat)
    ensures Repeat(x, n + 1) == Repeat(x, n) + [x]
  {}

  /** Out of quarantine a burst of up to the global capacity is admitted in full. */
  lemma {:induction false} BurstIsAdmitted(c: Settings, s: System, k: nat)
    requires c.Valid() && Fresh(s) && k <= c.global.capacity
    ensures Admitted(c, s, After(c, s, Burst(k)), k)
  {
    hide Step, Admitted;
    if k > 0 {
      BurstIsAdmitted(c, s, k - 1);
      assert Burst(k)[..|Burst(k)| - 1] == Burst(k - 1);
      OneMoreOfTheBurst(c, s, After(c, s, Burst(k - 1)), k - 1);
    } else {
      NoneAdmitted(c, s);
    }
  }

  lemma NoneAdmitted(c: Settings, s: System)
    requires Fresh(s)
    ensures Admitted(c, s, s, 0)
  {
    FullAtFirst(c, s);
    hide Level;
    assert Times(s.log, None) + Repeat(s.now, 0) == Times(s.log, None);
  }

  lemma FullAtFirst(c: Settings, s: System)
    requires Fresh(s)
    ensures Level(c.global, s.redis.global, s.now) == c.global.capacity as real
  {}

  /** A loss that is noticed at once, followed by the whole quarantine. */
  function LoseAndWait(c: Settings): seq<Event>
    requires c.Valid()
  {
    [Lose(BLANK), AdmitFor("", "g"), Tick(RateQuarantineMs(c))]
  }

  lemma LoseAndWaitRefreshes(c: Settings, s: System)
    requires c.Valid()
    ensures var t := After(c, s, LoseAndWait(c));
            Fresh(t) && t.now == s.now + RateQuarantineMs(c) && t.log == s.log && Current(t.redis)
  {
    var q := RateQuarantineMs(c);
    QuarantineIsPositive(c);
    hide RateQuarantineMs;
    var es := LoseAndWait(c);
    assert es[..2] == [Lose(BLANK), AdmitFor("", "g")] && es[..2][..1] == [Lose(BLANK)] && es[..1][..0] == [];
    assert After(c, s, es[..1]) == Step(c, s, Lose(BLANK));
    assert After(c, s, es[..2]) == Step(c, Step(c, s, Lose(BLANK)), AdmitFor("", "g"));
    assert After(c, s, es) == Step(c, After(c, s, es[..2]), Tick(q));
  }

  /** The run that drains the bucket, loses the state, sits out the quarantine and drains it again. */
  function DrainTwice(c: Settings): seq<Event>
    requires c.Valid()
  {
    LoseAndWait(c) + Burst(c.global.capacity) + LoseAndWait(c) + Burst(c.global.capacity)
  }

  lemma {:induction false} CountOfRepeat(x: int, n: nat, from: int, to: int, prefix: seq<int>)
    requires from <= x <= to
    ensures CountIn(prefix + Repeat(x, n), from, to) == CountIn(prefix, from, to) + n
  {
    if n == 0 {
      assert prefix + Repeat(x, 0) == prefix;
    } else {
      var all := prefix + Repeat(x, n);
      assert all[..|all| - 1] == prefix + Repeat(x, n - 1);
      CountOfRepeat(x, n - 1, from, to, prefix);
    }
  }

  lemma {:induction false} BurstIsLegal(k: nat)
    ensures Legal(Burst(k))
  {
    if k > 0 { BurstIsLegal(k - 1); }
  }

  const START := System(0, BLANK, [], map[])

  lemma DrainTwiceTimes(c: Settings)
    requires c.Valid()
    ensures var q, cap := RateQuarantineMs(c), c.global.capacity;
            Times(After(c, START, DrainTwice(c)).log, None) == Repeat(q, cap) + Repeat(2 * q, cap)
  {
    hide RateQuarantineMs, Step, Level, Burst, LoseAndWait;
    var cap := c.global.capacity;
    var wait, burst := LoseAndWait(c), Burst(cap);
    var s1 := After(c, START, wait);
    var s2 := After(c, s1, burst);
    var s3 := After(c, s2, wait);
    AfterConcat(c, START, wait, burst);
    AfterConcat(c, START, wait + burst, wait);
    AfterConcat(c, START, wait + burst + wait, burst);
    hide After;
    LoseAndWaitRefreshes(c, START);
    BurstIsAdmitted(c, s1, cap);
    LoseAndWaitRefreshes(c, s2);
    BurstIsAdmitted(c, s3, cap);
  }

  /** Twice the capacity within one quarantine is more than the bound when the quarantine is too short. */
  lemma TwiceIsTooMuch(c: Settings, p: BucketPolicy)
    requires c.Valid() && !Covers(c, p)
    ensures var q := RateQuarantineMs(c);
            && q >= 1
            && CountIn(Repeat(q, p.capacity) + Repeat(2 * q, p.capacity), q, 2 * q) as real
               > p.capacity as real + Gain(p, 2 * q - q)
  {
    hide RateQuarantineMs, Gain, Covers, CountIn, Repeat;
    var q := RateQuarantineMs(c);
    QuarantineIsPositive(c);
    CoversByGain(c, p);
    CountTwice(q, p.capacity);
    assert 2 * q - q == q;
  }

  lemma QuarantineIsPositive(c: Settings)
    requires c.Valid()
    ensures RateQuarantineMs(c) >= 1
  {
    hide RateHorizon, SharedHorizon;
  }

  lemma CountTwice(q: nat, cap: nat)
    ensures CountIn(Repeat(q, cap) + Repeat(2 * q, cap), q, 2 * q) == 2 * cap
  {
    CountOfRepeat(q, cap, q, 2 * q, []);
    assert [] + Repeat(q, cap) == Repeat(q, cap);
    CountOfRepeat(2 * q, cap, q, 2 * q, Repeat(q, cap));
  }

  /** If the quarantine is rounded below the refill time of the global bucket, twice its capacity is admitted
      within one quarantine, which is more than the bound. */
  lemma ShortQuarantineOverAdmits(c: Settings)
    requires c.Valid() && !Covers(c, c.global)
    ensures var q := RateQuarantineMs(c);
            IsStart(START) && Legal(DrainTwice(c)) && q >= 1 && !Bounded(c, START, DrainTwice(c), None, q, 2 * q)
  {
    hide RateQuarantineMs, After, Times, Gain, CountIn, Covers, Repeat, Bounded;
    DrainTwiceTimes(c);
    TwiceIsTooMuch(c, c.global);
    var q, cap := RateQuarantineMs(c), c.global.capacity;
    Exceeds(c, START, DrainTwice(c), None, q, 2 * q, Repeat(q, cap) + Repeat(2 * q, cap));
    BurstIsLegal(c.global.capacity);
  }

  /** The global bound holds of every run and window exactly when the rounded quarantine covers the refill. */
  lemma GlobalBoundIffCovered(c: Settings)
    requires c.Valid()
    ensures Covers(c, c.global) <==>
              forall s, es, from, to :: IsStart(s) && Legal(es) && from <= to ==> Bounded(c, s, es, None, from, to)
  {
    if Covers(c, c.global) {
      forall s, es, from, to | IsStart(s) && Legal(es) && from <= to ensures Bounded(c, s, es, None, from, to) {
        AdmissionsAreBounded(c, s, es, None, from, to);
      }
    } else {
      ShortQuarantineOverAdmits(c);
    }
  }

  /** Such settings exist: a hundred units at thirty per second refill in 3333 and a third milliseconds, and
      the quarantine is 3333. */
  lemma ShortQuarantineExists()
    ensures exists c: Settings :: c.Valid() && !Covers(c, c.global)
  {
    var p := BucketPolicy(100, 30.0);
    var c := Settings(p, p, 1, 2.0);
    assert c.Valid() && !Covers(c, c.global);
  }

  // ---- the same for one principal, where the global bucket is not the tighter one

  /** k admissions for one principal, with no time passing. */
  function Rush(k: nat): seq<Event> { seq(k, _ => AdmitFor("u", "g")) }

  /** One admission for a principal, with a unit in both buckets. */
  lemma OneMoreAdmitted(c: Settings, s: System)
    requires c.Valid() && Current(s.redis) && Until(s.redis) <= s.now
    requires Level(c.principal, PrincipalBucket(s.redis, "u"), s.now) >= 1.0
    requires Level(c.global, s.redis.global, s.now) >= 1.0
    ensures var t := Step(c, s, AdmitFor("u", "g"));
            && t.now == s.now && Current(t.redis) && Until(t.redis) <= t.now
            && Level(c.principal, PrincipalBucket(t.redis, "u"), t.now)
               == Level(c.principal, PrincipalBucket(s.redis, "u"), s.now) - 1.0
            && Level(c.global, t.redis.global, t.now) == Level(c.global, s.redis.global, s.now) - 1.0
            && t.log == s.log + [Admission(s.now, "u")]
  {
    ChargesBothOrNeither(c, s.redis, s.now, "u", "g", None);
    ChargesBothOrNeither(c, s.redis, s.now, "u", "g", Some("u"));
    hide RateQuarantineMs, TtlMs, Level;
  }

  /** Out of quarantine a rush of up to both capacities is admitted in full. */
  lemma {:induction false} RushIsAdmitted(c: Settings, s: System, k: nat)
    requires c.Valid() && Fresh(s) && k <= c.principal.capacity && k <= c.global.capacity
    ensures var t := After(c, s, Rush(k));
            && t.now == s.now && Current(t.redis) && Until(t.redis) <= t.now
            && Level(c.principal, PrincipalBucket(t.redis, "u"), t.now) == (c.principal.capacity - k) as real
            && Level(c.global, t.redis.global, t.now) == (c.global.capacity - k) as real
            && Times(t.log, Some("u")) == Times(s.log, Some("u")) + Repeat(s.now, k)
  {
    hide Step, Level;
    if k > 0 {
      RushIsAdmitted(c, s, k - 1);
      var before := After(c, s, Rush(k - 1));
      assert Rush(k)[..|Rush(k)| - 1] == Rush(k - 1);
      OneMoreAdmitted(c, before);
      TimesOfNext(before.log, Admission(s.now, "u"), Some("u"));
      assert Repeat(s.now, k) == Repeat(s.now, k - 1) + [s.now];
    } else {
      FullAtFirst(c, s);
      assert Level(c.principal, PrincipalBucket(s.redis, "u"), s.now) == c.principal.capacity as real by {
        EmptyIsFull(c.principal, s.now);
      }
      assert Repeat(s.now, 0) == [];
    }
  }

  lemma EmptyIsFull(p: BucketPolicy, now: int)
    ensures Level(p, None, now) == p.capacity as real
  {}

  function RushTwice(c: Settings): seq<Event>
    requires c.Valid()
  {
    LoseAndWait(c) + Rush(c.principal.capacity) + LoseAndWait(c) + Rush(c.principal.capacity)
  }

  lemma RushTwiceTimes(c: Settings)
    requires c.Valid() && c.principal.capacity <= c.global.capacity
    ensures var q, cap := RateQuarantineMs(c), c.principal.capacity;
            Times(After(c, START, RushTwice(c)).log, Some("u")) == Repeat(q, cap) + Repeat(2 * q, cap)
  {
    hide RateQuarantineMs, Step, Level, Rush, LoseAndWait;
    var cap := c.principal.capacity;
    var wait, rush := LoseAndWait(c), Rush(cap);
    var s1 := After(c, START, wait);
    var s2 := After(c, s1, rush);
    var s3 := After(c, s2, wait);
    AfterConcat(c, START, wait, rush);
    AfterConcat(c, START, wait + rush, wait);
    AfterConcat(c, START, wait + rush + wait, rush);
    hide After;
    LoseAndWaitRefreshes(c, START);
    RushIsAdmitted(c, s1, cap);
    LoseAndWaitRefreshes(c, s2);
    RushIsAdmitted(c, s3, cap);
  }

  /** A short quarantine lets one principal have twice its capacity, if the global bucket is not smaller. */
  lemma ShortQuarantineOverAdmitsPrincipal(c: Settings)
    requires c.Valid() && !Covers(c, c.principal) && c.principal.capacity <= c.global.capacity
    ensures var q := RateQuarantineMs(c);
            && IsStart(START) && Legal(RushTwice(c)) && q >= 1
            && !Bounded(c, START, RushTwice(c), Some("u"), q, 2 * q)
  {
    hide RateQuarantineMs, After, Times, Gain, CountIn, Covers, Repeat, Bounded;
    RushTwiceTimes(c);
    TwiceIsTooMuch(c, c.principal);
    var q, cap := RateQuarantineMs(c), c.principal.capacity;
    Exceeds(c, START, RushTwice(c), Some("u"), q, 2 * q, Repeat(q, cap) + Repeat(2 * q, cap));
  }

  /** Every principal's bound holds of every run and window exactly when the rounded quarantine covers the refill
      of a principal's bucket, if the global bucket is not smaller. */
  lemma PrincipalBoundIffCovered(c: Settings)
    requires c.Valid() && c.principal.capacity <= c.global.capacity
    ensures Covers(c, c.principal) <==> PrincipalsBounded(c)
  {
    if Covers(c, c.principal) {
      CoveredPrincipalsAreBounded(c);
    } else {
      ShortQuarantineOverAdmitsPrincipal(c);
    }
  }

  /** Every principal's bound holds of every run and window. */
  ghost predicate PrincipalsBounded(c: Settings)
    requires c.Valid()
  {
    forall s, es, who, from, to :: IsStart(s) && Legal(es) && from <= to ==> Bounded(c, s, es, Some(who), from, to)
  }

  /** A quarantine that refills a principal's bucket is enough whatever the global one is. */
  lemma CoveredPrincipalsAreBounded(c: Settings)
    requires c.Valid() && Covers(c, c.principal)
    ensures PrincipalsBounded(c)
  {
    forall s, es, who, from, to | IsStart(s) && Legal(es) && from <= to
      ensures Bounded(c, s, es, Some(who), from, to)
    {
      AdmissionsAreBounded(c, s, es, Some(who), from, to);
    }
  }

  lemma SlowerGainsLess(p: BucketPolicy, q: BucketPolicy, ms: nat)
    requires p.refill <= q.refill
    ensures Gain(p, ms) <= Gain(q, ms)
  {
    var x := ms as real;
    assert (q.refill - p.refill) * x >= 0.0;
  }
}
