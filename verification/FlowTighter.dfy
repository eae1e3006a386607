/** A principal's bound where the global bucket is the tighter one: it then takes less than a principal's refill to
    make up for a state loss. */
module FlowTighter {
  import opened Basics
  import opened FlowControl
  import opened FlowSafety
  import opened FlowTheorems
  import FlowTiming

  predicate GlobalTighter(c: Settings) {
    c.Valid() && c.global.capacity <= c.principal.capacity && c.global.refill <= c.principal.refill
  }

  /** The quarantine gives a principal as much as the global bucket can hand out at once. */
  predicate CoversBurst(c: Settings)
    requires c.Valid()
  {
    c.principal.refill * RateQuarantineMs(c) as real / 1000.0 >= c.global.capacity as real
  }

  lemma CoversBurstByGain(c: Settings)
    requires c.Valid()
    ensures CoversBurst(c) <==> Gain(c.principal, RateQuarantineMs(c)) >= c.global.capacity as real
  {
    hide RateQuarantineMs;
  }

  // ---- enough: the real global bucket never holds more than a principal's ideal one

  ghost predicate GlobalBelow(c: Settings, b: Option<Bucket>, times: seq<int>, t0: int) {
    forall t :: t >= t0 ==> Level(c.global, b, t) <= Ideal(c.principal, times, t)
  }

  ghost predicate TightInv(c: Settings, s: System, who: string)
    requires c.Valid()
  {
    var times := Times(s.log, Some(who));
    && Paid(c.principal, times) && NotAfter(times, s.now)
    && (Current(s.redis) ==> GlobalBelow(c, s.redis.global, times, Open(s)))
  }

  /** Some time after the last admission a paid ideal bucket holds at least what it gained meanwhile. */
  lemma IdealGains(p: BucketPolicy, times: seq<int>, now: int, ms: int, t: int, enough: real)
    requires p.Valid() && Paid(p, times) && NotAfter(times, now) && t >= now + ms
    requires Gain(p, ms) >= enough && p.capacity as real >= enough
    ensures Ideal(p, times, t) >= enough
  {
    if times != [] { GainMonotone(p, ms, t - times[|times| - 1]); }
  }

  lemma DetectGlobalBelow(c: Settings, s: System, who: string, nonce: string)
    requires GlobalTighter(c) && CoversBurst(c) && TightInv(c, s, who)
    ensures var d := Detect(s.redis, s.now, RateQuarantineMs(c), nonce);
            GlobalBelow(c, d.global, Times(s.log, Some(who)), MaxInt(s.now, Until(d)))
  {
    CoversBurstByGain(c);
    hide Level, Ideal, Gain, RateQuarantineMs, Paid, CoversBurst;
    var times := Times(s.log, Some(who));
    var d := Detect(s.redis, s.now, RateQuarantineMs(c), nonce);
    if !Current(s.redis) {
      forall t | t >= MaxInt(s.now, Until(d)) ensures Level(c.global, d.global, t) <= Ideal(c.principal, times, t) {
        FlowTiming.LevelIsCapped(c.global, d.global, t);
        IdealGains(c.principal, times, s.now, RateQuarantineMs(c), t, c.global.capacity as real);
      }
    }
  }

  /** An ideal bucket goes on from what it holds. */
  lemma IdealGoesOn(p: BucketPolicy, times: seq<int>, now: int, t: int)
    requires p.Valid() && NotAfter(times, now) && t >= now
    ensures Ideal(p, times, t) == MinReal(p.capacity as real, Ideal(p, times, now) + Gain(p, t - now))
  {
    GainMonotone(p, 0, t - now);
    if times != [] {
      GainAdds(p, now - times[|times| - 1], t - now);
    }
  }

  /** Charging the global bucket keeps it below an ideal one that holds at least as much. */
  lemma ChargedBelow(c: Settings, level: real, times: seq<int>, now: int)
    requires GlobalTighter(c) && Paid(c.principal, times) && NotAfter(times, now)
    requires level - 1.0 <= Ideal(c.principal, times, now)
    ensures GlobalBelow(c, Some(Charged(level, now, Some(now + TtlMs(c)))), times, now)
  {
    var p, b := c.principal, Some(Charged(level, now, Some(now + TtlMs(c))));
    TtlFills(c);
    hide TtlMs, Ideal, Paid;
    forall t | t >= now ensures Level(c.global, b, t) <= Ideal(p, times, t) {
      if t > now + TtlMs(c) {
        FlowTiming.LevelIsCapped(c.global, b, t);
        IdealGains(p, times, now, TtlMs(c), t, p.capacity as real);
      } else {
        IdealGoesOn(p, times, now, t);
        SlowerGainsLess(c.global, p, t - now);
      }
    }
  }

  /** A unit taken from the ideal bucket, too. */
  lemma PaysOne(p: BucketPolicy, times: seq<int>, now: int)
    requires p.Valid() && Paid(p, times) && NotAfter(times, now) && Ideal(p, times, now) >= 1.0
    ensures Paid(p, times + [now]) && NotAfter(times + [now], now)
    ensures Ideal(p, times + [now], now) == Ideal(p, times, now) - 1.0
  {
    assert (times + [now])[..|times|] == times;
    assert Gain(p, now - now) == 0.0;
  }

  lemma AdmitKeepsTight(c: Settings, s: System, principal: string, nonce: string, who: string)
    requires GlobalTighter(c) && CoversBurst(c) && TightInv(c, s, who)
    ensures TightInv(c, Step(c, s, AdmitFor(principal, nonce)), who)
  {
    hide GlobalBelow, Gain, CoversBurst, TtlMs, RateQuarantineMs, Admit, Level, Paid, Ideal, Times;
    var times := Times(s.log, Some(who));
    DetectGlobalBelow(c, s, who, nonce);
    ChargesBothOrNeither(c, s.redis, s.now, principal, nonce, None);
    TimesOfNext(s.log, Admission(s.now, principal), Some(who));
    assert times + [] == times;
    if Admit(c, s.redis, s.now, principal, nonce).1.Allowed? {
      ChargedStaysTight(c, s.redis.global, times, s.now, principal == who);
    }
  }

  /** An admission, of this principal or of another one, charges the global bucket. */
  lemma ChargedStaysTight(c: Settings, b: Option<Bucket>, times: seq<int>, now: int, mine: bool)
    requires GlobalTighter(c) && GlobalBelow(c, b, times, now) && Level(c.global, b, now) >= 1.0
    requires Paid(c.principal, times) && NotAfter(times, now)
    ensures var after := if mine then times + [now] else times;
            && Paid(c.principal, after) && NotAfter(after, now)
            && GlobalBelow(c, Some(Charged(Level(c.global, b, now), now, Some(now + TtlMs(c)))), after, now)
  {
    hide GlobalBelow, Gain, TtlMs, Level, Paid, Ideal;
    BelowAtOnce(c, b, times, now);
    if mine {
      PaysOne(c.principal, times, now);
      ChargedBelow(c, Level(c.global, b, now), times + [now], now);
    } else {
      ChargedBelow(c, Level(c.global, b, now), times, now);
    }
  }

  lemma BelowAtOnce(c: Settings, b: Option<Bucket>, times: seq<int>, t0: int)
    requires GlobalBelow(c, b, times, t0)
    ensures Level(c.global, b, t0) <= Ideal(c.principal, times, t0)
  {}

  lemma AcquireKeepsTight(c: Settings, s: System, token: string, nonce: string, who: string)
    requires GlobalTighter(c) && CoversBurst(c) && TightInv(c, s, who)
    ensures TightInv(c, Step(c, s, AcquireFor(token, nonce)), who)
  {
    hide GlobalBelow, CoversBurst, LeaseMs, RateQuarantineMs, LeaseQuarantineMs, LiveLeases, Paid;
    QuarantineIsShared(c);
    DetectGlobalBelow(c, s, who, nonce);
  }

  lemma StepKeepsTight(c: Settings, s: System, e: Event, who: string)
    requires GlobalTighter(c) && CoversBurst(c) && TightInv(c, s, who) && Enabled(e)
    ensures TightInv(c, Step(c, s, e), who)
  {
    match e
    case AdmitFor(principal, nonce) => AdmitKeepsTight(c, s, principal, nonce, who);
    case AcquireFor(token, nonce) => AcquireKeepsTight(c, s, token, nonce, who);
    case _ => hide CoversBurst, Paid, Level, Ideal;
  }

  lemma {:induction false} RunKeepsTight(c: Settings, s: System, es: seq<Event>, who: string)
    requires GlobalTighter(c) && CoversBurst(c) && IsStart(s) && Legal(es)
    ensures TightInv(c, After(c, s, es), who)
  {
    if es != [] {
      RunKeepsTight(c, s, es[..|es| - 1], who);
      StepKeepsTight(c, After(c, s, es[..|es| - 1]), es[|es| - 1], who);
    }
  }

  // ---- needed: otherwise enough losses let a principal have any number of bursts

  /** k times: lose the state, sit out the quarantine, and take all the global bucket has. */
  function DrainMany(c: Settings, k: nat): seq<Event>
    requires c.Valid()
  {
    if k == 0 then [] else DrainMany(c, k - 1) + LoseAndWait(c) + Rush(c.global.capacity)
  }

  function BurstTimes(q: int, cap: nat, k: nat): seq<int> {
    if k == 0 then [] else BurstTimes(q, cap, k - 1) + Repeat(k * q, cap)
  }

  lemma {:induction false} DrainManyTimes(c: Settings, k: nat)
    requires c.Valid() && c.global.capacity <= c.principal.capacity
    ensures var s := After(c, START, DrainMany(c, k));
            && s.now == k * RateQuarantineMs(c)
            && Times(s.log, Some("u")) == BurstTimes(RateQuarantineMs(c), c.global.capacity, k)
  {
    hide RateQuarantineMs, Step, Level, Rush, LoseAndWait;
    if k > 0 {
      var before := DrainMany(c, k - 1);
      DrainManyTimes(c, k - 1);
      AfterConcat(c, START, before, LoseAndWait(c));
      AfterConcat(c, START, before + LoseAndWait(c), Rush(c.global.capacity));
      hide After, Times;
      var s := After(c, START, before);
      LoseAndWaitRefreshes(c, s);
      RushIsAdmitted(c, After(c, s, LoseAndWait(c)), c.global.capacity);
      LastBurst(RateQuarantineMs(c), k);
    }
  }

  lemma {:induction false} CountOfBursts(q: int, cap: nat, k: nat, to: int)
    requires q >= 0 && k * q <= to
    ensures CountIn(BurstTimes(q, cap, k), q, to) == k * cap
  {
    hide Repeat, CountIn;
    if k == 0 {
      CountOfNothing(q, to);
    } else {
      LastBurst(q, k);
      LastBurst(cap, k);
      CountOfBursts(q, cap, k - 1, to);
      OneMoreBurst(q, cap, k, to);
    }
  }

  lemma CountOfNothing(from: int, to: int)
    ensures CountIn([], from, to) == 0
  {}

  lemma OneMoreBurst(q: int, cap: nat, k: nat, to: int)
    requires k >= 1 && q <= k * q <= to
    ensures CountIn(BurstTimes(q, cap, k), q, to) == CountIn(BurstTimes(q, cap, k - 1), q, to) + cap
  {
    var last := k * q;
    CountOfRepeat(last, cap, q, to, BurstTimes(q, cap, k - 1));
  }

  lemma {:induction false} DrainManyIsLegal(c: Settings, k: nat)
    requires c.Valid()
    ensures Legal(DrainMany(c, k))
  {
    if k > 0 { DrainManyIsLegal(c, k - 1); }
  }

  /** Every further burst gains a fixed amount on the bound. */
  lemma GainOfMany(p: BucketPolicy, q: int, n: nat)
    ensures Gain(p, n * q) == n as real * Gain(p, q)
  {
    assert (n * q) as real == n as real * q as real;
  }

  lemma BurstsExceed(p: BucketPolicy, q: int, cap: nat) returns (k: nat)
    requires p.Valid() && q >= 1 && Gain(p, q) < cap as real
    ensures k >= 1 && CountIn(BurstTimes(q, cap, k), q, k * q) as real > p.capacity as real + Gain(p, k * q - q)
  {
    hide Gain, BurstTimes, CountIn;
    FlowTiming.GainIsNatural(p, q);
    var gain := Gain(p, q);
    k := Rounds(p.capacity, cap as real - gain);
    LastBurst(q, k);
    CountOfBursts(q, cap, k, k * q);
    GainOfMany(p, q, k - 1);
    ManyAreTooMany(p.capacity, cap, gain, k);
    var counted, bound := (k * cap) as real, p.capacity as real + (k - 1) as real * gain;
    assert Gain(p, k * q - q) == (k - 1) as real * gain;
    assert counted > bound;
  }

  lemma LastBurst(q: int, k: nat)
    requires k >= 1
    ensures k * q - q == (k - 1) * q
    ensures q >= 0 ==> k * q >= q && (k - 1) * q >= 0
  {
    if q >= 0 { assert (k - 1) * q >= 0; }
  }

  /** Whenever the global bucket is not larger, a quarantine that gives a principal less than one global burst is too
      short. */
  lemma ShortQuarantineLetsBurstsPass(c: Settings) returns (k: nat)
    requires c.Valid() && c.global.capacity <= c.principal.capacity && !CoversBurst(c)
    ensures var q := RateQuarantineMs(c);
            && k >= 1 && IsStart(START) && Legal(DrainMany(c, k)) && q >= 1
            && !Bounded(c, START, DrainMany(c, k), Some("u"), q, k * q)
  {
    var q := RateQuarantineMs(c);
    QuarantineIsPositive(c);
    assert IsStart(START);
    CoversBurstByGain(c);
    hide RateQuarantineMs, Gain, After, Times, DrainMany, BurstTimes, CountIn, Legal, IsStart, CoversBurst, Bounded;
    k := BurstsExceed(c.principal, q, c.global.capacity);
    DrainManyIsLegal(c, k);
    DrainManyTimes(c, k);
    var to := k * q;
    Exceeds(c, START, DrainMany(c, k), Some("u"), q, to, BurstTimes(q, c.global.capacity, k));
  }

  lemma MoreTimes(a: real, b: real, s: real)
    requires a > b && s > 0.0
    ensures a * s > b * s
  {
    assert (a - b) * s > 0.0;
    assert (a - b) * s == a * s - b * s;
  }

  function Rounds(capacity: nat, short: real): (k: nat)
    requires short > 0.0
    ensures k >= 1 && k as real * short > capacity as real
  {
    var x := capacity as real / short;
    assert x >= 0.0 && x * short == capacity as real;
    var k := x.Floor + 1;
    MoreTimes(k as real, x, short);
    k
  }

  lemma ManyAreTooMany(capacity: nat, cap: nat, gain: real, k: nat)
    requires k >= 1 && k as real * (cap as real - gain) > capacity as real && gain >= 0.0
    ensures (k * cap) as real > capacity as real + (k - 1) as real * gain
  {
    assert (k * cap) as real == k as real * cap as real;
    assert k as real * (cap as real - gain) == k as real * cap as real - k as real * gain;
    assert (k - 1) as real * gain == k as real * gain - gain;
  }

  /** With a global bucket that is tighter in both respects, every principal's bound holds of every run and window
      exactly when the quarantine gives a principal as much as the global bucket holds. */
  lemma PrincipalBoundIffBurstCovered(c: Settings)
    requires GlobalTighter(c)
    ensures CoversBurst(c) <==> PrincipalsBounded(c)
  {
    hide CoversBurst;
    if CoversBurst(c) {
      forall s, es, who, from, to | IsStart(s) && Legal(es) && from <= to
        ensures Bounded(c, s, es, Some(who), from, to)
      {
        BoundBurstCovered(c, s, es, who, from, to);
      }
    } else {
      BoundNeedsBurst(c);
    }
  }

  lemma BoundBurstCovered(c: Settings, s: System, es: seq<Event>, who: string, from: int, to: int)
    requires GlobalTighter(c) && CoversBurst(c) && IsStart(s) && Legal(es) && from <= to
    ensures Bounded(c, s, es, Some(who), from, to)
  {
    hide After, Times, CountIn, Gain, Bounded, CoversBurst;
    RunKeepsTight(c, s, es, who);
    WindowBound(c.principal, Times(After(c, s, es).log, Some(who)), from, to);
    BoundedByGain(c, s, es, Some(who), from, to);
  }

  /** Whenever the global bucket is not larger, the bound needs the quarantine to make up for a global burst. */
  lemma BoundNeedsBurst(c: Settings)
    requires c.Valid() && c.global.capacity <= c.principal.capacity && !CoversBurst(c)
    ensures !PrincipalsBounded(c)
  {
    hide CoversBurst, RateQuarantineMs;
    var k := ShortQuarantineLetsBurstsPass(c);
    var q := RateQuarantineMs(c);
    LastBurst(q, k);
    hide Bounded, DrainMany;
    assert IsStart(START) && Legal(DrainMany(c, k)) && q <= k * q;
  }
}
