/** What giving leases back is for: the next request finds room. */
module FlowRelease {
  import opened Basics
  import opened FlowControl
  import opened FlowSafety
  import opened FlowTheorems
  import opened FlowTiming

  /** These leases are given back, and the script is reached each time. */
  function GiveAll(tokens: seq<string>): seq<Event> {
    if tokens == [] then [] else GiveAll(tokens[..|tokens| - 1]) + [GiveBack(tokens[|tokens| - 1], true)]
  }

  /** The leases whose end is ahead in a set whose key has not expired, without these. */
  function LiveWithout(r: Redis, now: int, tokens: seq<string>): map<string, int> {
    map k | k in r.leases && r.leases[k] > now && (r.leasesExpire.Some? ==> now <= r.leasesExpire.value) && k !in tokens
      :: r.leases[k]
  }

  function Without(m: map<string, int>, tokens: seq<string>): map<string, int> {
    map k | k in m && k !in tokens :: m[k]
  }

  lemma WithoutOneMore(m: map<string, int>, tokens: seq<string>, token: string)
    ensures Without(m, tokens + [token]) == Without(m, tokens) - {token}
  {}

  /** The server's set and the clients' memory lose exactly what was given back; marker, buckets, clock and the set's
      expiry stay. */
  lemma {:induction false} GivenBackIsGone(c: Settings, s: System, tokens: seq<string>)
    requires c.Valid()
    ensures After(c, s, GiveAll(tokens))
         == s.(redis := s.redis.(leases := Without(s.redis.leases, tokens)), held := Without(s.held, tokens))
  {
    if tokens == [] {
      assert Without(s.redis.leases, tokens) == s.redis.leases && Without(s.held, tokens) == s.held;
    } else {
      hide Without, Step;
      var init, last := tokens[..|tokens| - 1], tokens[|tokens| - 1];
      GivenBackIsGone(c, s, init);
      assert tokens == init + [last];
      WithoutOneMore(s.redis.leases, init, last);
      WithoutOneMore(s.held, init, last);
      GiveOne(c, After(c, s, GiveAll(init)), last);
      assert GiveAll(tokens)[..|GiveAll(tokens)| - 1] == GiveAll(init);
    }
  }

  lemma GiveOne(c: Settings, s: System, token: string)
    requires c.Valid()
    ensures Step(c, s, GiveBack(token, true))
         == s.(redis := s.redis.(leases := s.redis.leases - {token}), held := s.held - {token})
  {}

  lemma LiveAfterGivingBack(c: Settings, s: System, tokens: seq<string>, now: int)
    requires c.Valid()
    ensures LiveLeases(After(c, s, GiveAll(tokens)).redis, now) == LiveWithout(s.redis, now, tokens)
  {
    GivenBackIsGone(c, s, tokens);
    hide After, GiveAll;
    assert LiveLeases(After(c, s, GiveAll(tokens)).redis, now) == LiveWithout(s.redis, now, tokens);
  }

  /** Outside quarantine a request under a new token is granted exactly when fewer than the limit are live. */
  lemma GrantedIfRoom(c: Settings, s: System, token: string, nonce: string)
    requires c.Valid() && Current(s.redis) && Until(s.redis) <= s.now && token !in s.held
    ensures Acquire(c, s.redis, s.now, token, nonce).1 == Acquired <==> |LiveLeases(s.redis, s.now)| < c.limit
    ensures Step(c, s, AcquireFor(token, nonce)).held
         == if |LiveLeases(s.redis, s.now)| < c.limit then s.held[token := s.now + LeaseMs(c)] else s.held
  {
    AcquireLeases(c, s.redis, s.now, token, nonce);
    hide LiveLeases, LeaseMs, LeaseQuarantineMs, Acquire;
  }

  /** Outside quarantine, after some leases were given back, a new request is granted exactly when fewer than the limit
      are live without them; it then holds a lease of the configured length. */
  lemma RoomIsGranted(c: Settings, s: System, tokens: seq<string>, token: string, nonce: string)
    requires c.Valid() && Current(s.redis) && Until(s.redis) <= s.now && token !in s.held
    ensures var t := After(c, s, GiveAll(tokens));
            var live := LiveWithout(s.redis, s.now, tokens);
            && (Acquire(c, t.redis, t.now, token, nonce).1 == Acquired <==> |live| < c.limit)
            && Step(c, t, AcquireFor(token, nonce)).held
               == if |live| < c.limit then t.held[token := s.now + LeaseMs(c)] else t.held
  {
    hide After, GiveAll, LiveWithout, LiveLeases, LeaseMs, Acquire, Step, Without;
    GivenBackIsGone(c, s, tokens);
    LiveAfterGivingBack(c, s, tokens, s.now);
    WithoutIsLess(s.held, tokens, token);
    GrantedIfRoom(c, After(c, s, GiveAll(tokens)), token, nonce);
  }

  lemma WithoutIsLess(m: map<string, int>, tokens: seq<string>, token: string)
    ensures token !in m ==> token !in Without(m, tokens)
  {}

  /** In particular, from a set that is not over the limit, giving back one live lease makes room for the next. */
  lemma OneReturnMakesRoom(c: Settings, s: System, given: string, token: string, nonce: string)
    requires c.Valid() && Current(s.redis) && Until(s.redis) <= s.now && token !in s.held
    requires given in LiveLeases(s.redis, s.now) && |LiveLeases(s.redis, s.now)| <= c.limit
    ensures var t := Step(c, s, GiveBack(given, true));
            Acquire(c, t.redis, t.now, token, nonce).1 == Acquired
  {
    RoomIsGranted(c, s, [given], token, nonce);
    var live, rest := LiveLeases(s.redis, s.now), LiveWithout(s.redis, s.now, [given]);
    assert rest == live - {given};
    assert |live| == |live.Keys| && |rest| == |rest.Keys| && rest.Keys == live.Keys - {given};
    assert GiveAll([given])[..0] == [] && GiveAll([given]) == [GiveBack(given, true)];
    hide Acquire, LeaseMs;
    assert After(c, s, GiveAll([given])) == Step(c, s, GiveBack(given, true));
  }
}
