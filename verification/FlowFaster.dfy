/** A principal's bound where the global bucket is smaller but refills faster: a principal then drains its own bucket in
    time, and the quarantine has to refill it. */
module FlowFaster {
  import opened Basics
  import opened FlowControl
  import opened FlowSafety
  import opened FlowTheorems
  import opened FlowTiming
  import FlowTighter

  /** The global bucket refills faster, and one millisecond of its refill fits beside a unit left over. */
  predicate GlobalFaster(c: Settings) {
    && c.Valid() && c.global.capacity <= c.principal.capacity && c.principal.refill < c.global.refill
    && Gain(c.global, 1) <= (c.global.capacity - 1) as real
  }

  // ---- levels, millisecond by millisecond

  /** Both buckets after i milliseconds of taking all there is, n units in all: the principal's is the emptier one and
      holds no unit, or the global one holds none and the other comes down to it at a fixed rate. */
  predicate Dripping(c: Settings, y: real, x: real, i: nat, n: nat) {
    && 0.0 <= y && 0.0 <= x && y + n as real == c.principal.capacity as real + Gain(c.principal, i)
    && (|| (y <= x && y < 1.0)
        || (x < 1.0 && x < y
            && y - x <= (c.principal.capacity - c.global.capacity) as real
                        - (Gain(c.global, i) - Gain(c.principal, i))))
  }

  /** In the next millisecond neither bucket overflows before all that is there is taken. */
  lemma OneDrip(c: Settings, y: real, x: real, i: nat, n: nat) returns (k: nat)
    requires GlobalFaster(c) && Dripping(c, y, x, i, n)
    ensures var y', x' := MinReal(c.principal.capacity as real, y + Gain(c.principal, 1)),
                          MinReal(c.global.capacity as real, x + Gain(c.global, 1));
            && k as real <= y' && k as real <= x'
            && Dripping(c, y' - k as real, x' - k as real, i + 1, n + k)
  {
    GainAdds(c.principal, i, 1);
    GainAdds(c.global, i, 1);
    GainIsLess(c, i);
    GainIsLess(c, 1);
    hide Gain;
    var y', x' := y + Gain(c.principal, 1), MinReal(c.global.capacity as real, x + Gain(c.global, 1));
    k := MinReal(y', x').Floor;
  }

  lemma GainIsLess(c: Settings, ms: nat)
    requires c.Valid() && c.principal.refill < c.global.refill
    ensures 0.0 <= Gain(c.principal, ms) <= Gain(c.global, ms)
  {
    SlowerGainsLess(c.principal, c.global, ms);
    GainMonotone(c.principal, 0, ms);
  }

  // ---- the run that takes all there is

  /** Only this principal was admitted, and only in this time. */
  predicate Within(log: seq<Admission>, from: int, to: int) {
    forall i :: 0 <= i < |log| ==> log[i].principal == "u" && from <= log[i].time <= to
  }

  lemma {:induction false} CountAll(log: seq<Admission>, from: int, to: int)
    requires Within(log, from, to)
    ensures CountIn(Times(log, Some("u")), from, to) == |log|
  {
    if log != [] {
      var init, a := log[..|log| - 1], log[|log| - 1];
      assert log == init + [a];
      CountAll(init, from, to);
      TimesOfNext(init, a, Some("u"));
      var times := Times(init, Some("u"));
      assert (times + [a.time])[..|times|] == times;
    }
  }

  /** Out of quarantine, with these levels. */
  ghost predicate Stands(c: Settings, s: System, y: real, x: real, from: int)
    requires c.Valid()
  {
    && Current(s.redis) && Until(s.redis) <= s.now && Sound(c, s.redis, s.now)
    && Level(c.principal, PrincipalBucket(s.redis, "u"), s.now) == y && Level(c.global, s.redis.global, s.now) == x
    && from <= s.now && Within(s.log, from, s.now)
  }

  lemma OneStands(c: Settings, s: System, y: real, x: real, from: int)
    requires c.Valid() && Stands(c, s, y, x, from) && y >= 1.0 && x >= 1.0
    ensures var t := Step(c, s, AdmitFor("u", "g"));
            Stands(c, t, y - 1.0, x - 1.0, from) && t.now == s.now && |t.log| == |s.log| + 1
  {
    hide Step, Level, Sound;
    OneMoreAdmitted(c, s);
    StepKeepsSound(c, s, AdmitFor("u", "g"));
  }

  lemma {:induction false} RushStands(c: Settings, s: System, y: real, x: real, from: int, k: nat)
    requires c.Valid() && Stands(c, s, y, x, from) && k as real <= y && k as real <= x
    ensures var t := After(c, s, Rush(k));
            && Stands(c, t, y - k as real, x - k as real, from) && t.now == s.now && |t.log| == |s.log| + k
  {
    hide Stands, Step;
    if k > 0 {
      RushStands(c, s, y, x, from, k - 1);
      assert Rush(k)[..|Rush(k)| - 1] == Rush(k - 1);
      OneStands(c, After(c, s, Rush(k - 1)), y - (k - 1) as real, x - (k - 1) as real, from);
    }
  }

  lemma TickStands(c: Settings, s: System, y: real, x: real, from: int)
    requires c.Valid() && Stands(c, s, y, x, from)
    ensures var t := Step(c, s, Tick(1));
            && t.now == s.now + 1 && t.log == s.log
            && Stands(c, t, MinReal(c.principal.capacity as real, y + Gain(c.principal, 1)),
                      MinReal(c.global.capacity as real, x + Gain(c.global, 1)), from)
  {
    StepKeepsSound(c, s, Tick(1));
    assert SoundBucket(PolicyOf(c, Some("u")), TtlMs(c), BucketOf(s.redis, Some("u")), s.now);
    assert SoundBucket(PolicyOf(c, None), TtlMs(c), BucketOf(s.redis, None), s.now);
    hide Sound, SoundBucket, TtlMs, Level, Gain;
    SoundLevel(c, Some("u"), BucketOf(s.redis, Some("u")), s.now, s.now + 1);
    SoundLevel(c, None, BucketOf(s.redis, None), s.now, s.now + 1);
  }

  /** m milliseconds of taking all there is. */
  lemma {:induction false} Drips(c: Settings, s: System, y: real, x: real, from: int, n: nat, m: nat)
    returns (es: seq<Event>, t: System, y': real, x': real, n': nat)
    requires GlobalFaster(c) && Stands(c, s, y, x, from) && Dripping(c, y, x, 0, n)
    ensures Legal(es) && After(c, s, es) == t && t.now == s.now + m && n' >= n && |t.log| == |s.log| + (n' - n)
    ensures Stands(c, t, y', x', from) && Dripping(c, y', x', m, n')
  {
    hide Stands, Dripping, Step;
    if m == 0 {
      es, t, y', x', n' := [], s, y, x, n;
    } else {
      var before: System;
      es, before, y', x', n' := Drips(c, s, y, x, from, n, m - 1);
      var k := OneDrip(c, y', x', m - 1, n');
      TickStands(c, before, y', x', from);
      y', x' := MinReal(c.principal.capacity as real, y' + Gain(c.principal, 1)),
                MinReal(c.global.capacity as real, x' + Gain(c.global, 1));
      var ticked := Step(c, before, Tick(1));
      RushStands(c, ticked, y', x', from, k);
      AfterNext(c, s, es, Tick(1));
      AfterConcat(c, s, es + [Tick(1)], Rush(k));
      es := es + [Tick(1)] + Rush(k);
      t, y', x', n' := After(c, ticked, Rush(k)), y' - k as real, x' - k as real, n' + k;
    }
  }

  lemma AfterNext(c: Settings, s: System, es: seq<Event>, e: Event)
    requires c.Valid()
    ensures After(c, s, es + [e]) == Step(c, After(c, s, es), e)
  {
    assert (es + [e])[..|es|] == es;
  }

  /** A whole number of units refills a principal's bucket in d milliseconds, and in k times as many the global bucket
      gains what it was smaller. */
  ghost predicate Marks(c: Settings, d: nat, v: nat, k: nat) {
    && GlobalFaster(c) && Gain(c.principal, d) == v as real
    && k as real * (Gain(c.global, d) - Gain(c.principal, d)) > (c.principal.capacity - c.global.capacity) as real
  }

  /** After that time the principal's bucket is empty to the last fraction. */
  lemma DrainedAtTheMark(c: Settings, d: nat, v: nat, k: nat, y: real, x: real, n: nat)
    requires Marks(c, d, v, k) && Dripping(c, y, x, k * d, n)
    ensures n == c.principal.capacity + k * v
  {
    FlowTighter.GainOfMany(c.principal, d, k);
    FlowTighter.GainOfMany(c.global, d, k);
    hide Gain;
    var a, b := Gain(c.principal, d), Gain(c.global, d);
    assert k as real * (b - a) == k as real * b - k as real * a;
    assert k as real * a == (k * v) as real;
    assert y < 1.0;
    assert y == (c.principal.capacity + k * v - n) as real;
  }

  /** Out of quarantine with full buckets: a principal takes its capacity and all its refill up to the mark. */
  lemma DrainsToTheMark(c: Settings, s: System, from: int, d: nat, v: nat, k: nat) returns (es: seq<Event>, t: System)
    requires Marks(c, d, v, k) && Fresh(s) && Sound(c, s.redis, s.now) && from <= s.now && Within(s.log, from, s.now)
    ensures Legal(es) && After(c, s, es) == t && t.now == s.now + k * d
    ensures |t.log| == |s.log| + c.principal.capacity + k * v
    ensures Sound(c, t.redis, t.now) && Within(t.log, from, t.now)
  {
    var whole, part := c.principal.capacity as real, c.global.capacity as real;
    FullAtFirst(c, s);
    EmptyIsFull(c.principal, s.now);
    assert Stands(c, s, whole, part, from);
    hide Level, Sound, Step;
    RushStands(c, s, whole, part, from, c.global.capacity);
    var rushed := After(c, s, Rush(c.global.capacity));
    assert Gain(c.principal, 0) == 0.0 && Gain(c.global, 0) == 0.0;
    var more, y, x, n;
    more, t, y, x, n := Drips(c, rushed, whole - part, 0.0, from, c.global.capacity, k * d);
    DrainedAtTheMark(c, d, v, k, y, x, n);
    AfterConcat(c, s, Rush(c.global.capacity), more);
    es := Rush(c.global.capacity) + more;
  }

  lemma WaitingStaysSound(c: Settings, s: System)
    requires c.Valid() && Sound(c, s.redis, s.now)
    ensures var t := After(c, s, LoseAndWait(c)); Sound(c, t.redis, t.now)
  {
    hide Sound, RateQuarantineMs;
    var es := LoseAndWait(c);
    BlankIsSound(c, s.now);
    hide After;
    AfterNothing(c, s);
    AfterNext(c, s, [], es[0]);
    AfterNext(c, s, [es[0]], es[1]);
    AfterNext(c, s, [es[0], es[1]], es[2]);
    assert [] + [es[0]] == [es[0]] && [es[0]] + [es[1]] == [es[0], es[1]] && [es[0], es[1]] + [es[2]] == es;
    var s1 := Step(c, s, es[0]);
    var s2 := Step(c, s1, es[1]);
    StepKeepsSound(c, s, es[0]);
    StepKeepsSound(c, s1, es[1]);
    StepKeepsSound(c, s2, es[2]);
  }

  lemma BlankIsSound(c: Settings, now: int)
    requires c.Valid()
    ensures Sound(c, BLANK, now)
  {
    forall who ensures SoundBucket(PolicyOf(c, who), TtlMs(c), BucketOf(BLANK, who), now) {}
  }

  lemma AfterNothing(c: Settings, s: System)
    requires c.Valid()
    ensures After(c, s, []) == s
  {}

  /** One round: lose the state, sit out the quarantine, drain to the mark. */
  lemma OneRound(c: Settings, s: System, from: int, d: nat, v: nat, k: nat) returns (es: seq<Event>, t: System)
    requires Marks(c, d, v, k) && Sound(c, s.redis, s.now)
    requires from <= s.now + RateQuarantineMs(c) && Within(s.log, from, s.now)
    ensures Legal(es) && After(c, s, es) == t && t.now == s.now + RateQuarantineMs(c) + k * d
    ensures |t.log| == |s.log| + c.principal.capacity + k * v
    ensures Sound(c, t.redis, t.now) && Within(t.log, from, t.now)
  {
    QuarantineIsPositive(c);
    hide Sound, Marks, RateQuarantineMs, Step;
    WaitingStaysSound(c, s);
    LoseAndWaitRefreshes(c, s);
    var drained;
    drained, t := DrainsToTheMark(c, After(c, s, LoseAndWait(c)), from, d, v, k);
    AfterConcat(c, s, LoseAndWait(c), drained);
    es := LoseAndWait(c) + drained;
  }

  // ---- too short a quarantine

  /** Two rounds give a principal more than its bound, whatever the global bucket holds at once. */
  lemma TwoRoundsExceed(c: Settings, d: nat, v: nat, k: nat) returns (es: seq<Event>, from: int, to: int)
    requires Marks(c, d, v, k) && !Covers(c, c.principal)
    ensures IsStart(START) && Legal(es) && from <= to && !Bounded(c, START, es, Some("u"), from, to)
  {
    var q := RateQuarantineMs(c);
    QuarantineIsPositive(c);
    var t;
    es, t := TwoRounds(c, d, v, k);
    from, to := q, t.now;
    CoversByGain(c, c.principal);
    hide RateQuarantineMs, Marks, Times, CountIn, After, Legal, Gain, Covers, Bounded;
    CountAll(t.log, from, to);
    TwoRoundsGain(c, d, v, k, q);
    TwoRoundsLast(q, k, d, t.now);
    Exceeds(c, START, es, Some("u"), from, to, Times(t.log, Some("u")));
  }

  lemma TwoRoundsLast(q: int, k: nat, d: nat, now: int)
    requires now == 2 * q + 2 * (k * d)
    ensures now - q == q + 2 * (k * d) && k * d >= 0
  {}

  lemma TwoRounds(c: Settings, d: nat, v: nat, k: nat) returns (es: seq<Event>, t: System)
    requires Marks(c, d, v, k)
    ensures var q := RateQuarantineMs(c);
            && Legal(es) && After(c, START, es) == t && t.now == 2 * q + 2 * (k * d)
            && |t.log| == 2 * (c.principal.capacity + k * v) && Within(t.log, q, t.now)
  {
    QuarantineIsPositive(c);
    BlankIsSound(c, START.now);
    hide RateQuarantineMs, Sound, Marks, After;
    var q := RateQuarantineMs(c);
    var first, second, half;
    first, half := OneRound(c, START, q, d, v, k);
    second, t := OneRound(c, half, q, d, v, k);
    AfterConcat(c, START, first, second);
    es := first + second;
  }

  lemma TwoRoundsGain(c: Settings, d: nat, v: nat, k: nat, q: nat)
    requires Marks(c, d, v, k) && Gain(c.principal, q) < c.principal.capacity as real
    ensures c.principal.capacity as real + Gain(c.principal, q + 2 * (k * d))
          < (2 * (c.principal.capacity + k * v)) as real
  {
    var p := c.principal;
    GainAdds(p, q, 2 * (k * d));
    GainAdds(p, k * d, k * d);
    FlowTighter.GainOfMany(p, d, k);
    hide Gain;
    assert k as real * v as real == (k * v) as real;
  }

  /** With a smaller but faster global bucket, and a principal's rate that is a fraction of whole numbers as every
      floating-point number is, every principal's bound holds of every run and window exactly when the rounded
      quarantine covers the refill of a principal's bucket. */
  lemma PrincipalBoundIffCoveredFaster(c: Settings, a: nat, b: nat)
    requires GlobalFaster(c) && b >= 1 && c.principal.refill == a as real / b as real
    ensures Covers(c, c.principal) <==> PrincipalsBounded(c)
  {
    if Covers(c, c.principal) {
      CoveredPrincipalsAreBounded(c);
    } else {
      hide Covers;
      var d := 1000 * b;
      MarkOfFraction(c.principal, a, b);
      FasterGainsMore(c, d);
      hide Gain;
      var k := FlowTighter.Rounds(c.principal.capacity - c.global.capacity, Gain(c.global, d) - Gain(c.principal, d));
      var es, from, to := TwoRoundsExceed(c, d, a, k);
      hide Bounded;
    }
  }

  lemma MarkOfFraction(p: BucketPolicy, a: nat, b: nat)
    requires b >= 1 && p.refill == a as real / b as real
    ensures Gain(p, 1000 * b) == a as real
  {
    assert p.refill * b as real == a as real;
    assert (1000 * b) as real == 1000.0 * b as real;
    assert p.refill * (1000.0 * b as real) == 1000.0 * (p.refill * b as real);
  }

  lemma FasterGainsMore(c: Settings, d: nat)
    requires c.Valid() && c.principal.refill < c.global.refill && d >= 1
    ensures Gain(c.principal, d) < Gain(c.global, d)
  {
    FlowTighter.MoreTimes(c.global.refill, c.principal.refill, d as real);
  }

  /** Such settings break the bound although a global burst is made up for: a principal's hundred units at thirty per
      second, and ninety-nine at thirty-one for all. */
  lemma FasterGlobalExample()
    ensures var c := Settings(BucketPolicy(100, 30.0), BucketPolicy(99, 31.0), 1, 1.0);
            GlobalFaster(c) && FlowTighter.CoversBurst(c) && !Covers(c, c.principal) && !PrincipalsBounded(c)
  {
    var c := Settings(BucketPolicy(100, 30.0), BucketPolicy(99, 31.0), 1, 1.0);
    ExampleQuarantine(c);
    hide RateQuarantineMs;
    PrincipalBoundIffCoveredFaster(c, 30, 1);
  }

  lemma ExampleQuarantine(c: Settings)
    requires c == Settings(BucketPolicy(100, 30.0), BucketPolicy(99, 31.0), 1, 1.0)
    ensures RateQuarantineMs(c) == 3333
  {}
}
