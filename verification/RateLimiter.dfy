// The token-bucket limiter (tr_hash_i64/api/middleware.py), with times and
// token counts as real numbers.
module RateLimiter {
  import opened Prelude

  datatype Bucket = Bucket(tokens: real, last: real)

  datatype Limiter = Limiter(
    rate: real, capacity: real, buckets: map<string, Bucket>, maxBuckets: int,
    cleanupInterval: real, lastCleanup: real)

  function MinReal(a: real, b: real): real {
    if a < b then a else b
  }

  // Tokens that flow in over a time.
  function Refill(time: real, rate: real): real {
    time * rate
  }

  // The tokens an address has at a time; an unknown one has a full bucket.
  function Level(s: Limiter, ip: string, now: real): real {
    if ip in s.buckets then MinReal(s.capacity, s.buckets[ip].tokens + Refill(now - s.buckets[ip].last, s.rate))
    else s.capacity
  }

  predicate Stale(s: Limiter, b: Bucket, now: real)
    requires s.rate > 0.0
  {
    now - b.last > s.capacity / s.rate
  }

  function Cleanup(s: Limiter, now: real): Limiter
    requires s.rate > 0.0
  {
    s.(buckets := map ip | ip in s.buckets && !Stale(s, s.buckets[ip], now) :: s.buckets[ip], lastCleanup := now)
  }

  function Swept(s: Limiter, now: real): Limiter
    requires s.rate > 0.0
  {
    if now - s.lastCleanup > s.cleanupInterval then Cleanup(s, now) else s
  }

  // No room for a new address, even after a cleanup.
  predicate Evicts(s: Limiter, ip: string, now: real)
    requires s.rate > 0.0
  {
    ip !in Swept(s, now).buckets && |Swept(s, now).buckets| >= s.maxBuckets
    && |Cleanup(Swept(s, now), now).buckets| >= s.maxBuckets
  }

  // One request. When a bucket must go, `oldest` is the one that goes.
  function Allow(s: Limiter, ip: string, now: real, oldest: string): (Limiter, bool)
    requires s.rate > 0.0
  {
    var c := Swept(s, now);
    if ip !in c.buckets then
      var d := if |c.buckets| >= c.maxBuckets then Cleanup(c, now) else c;
      var e := if |d.buckets| >= c.maxBuckets then d.(buckets := d.buckets - {oldest}) else d;
      (e.(buckets := e.buckets[ip := Bucket(s.capacity - 1.0, now)]), true)
    else
      var b := c.buckets[ip];
      var tokens := MinReal(s.capacity, b.tokens + Refill(now - b.last, s.rate));
      if tokens >= 1.0 then (c.(buckets := c.buckets[ip := Bucket(tokens - 1.0, now)]), true)
      else (c.(buckets := c.buckets[ip := Bucket(tokens, now)]), false)
  }

  ghost predicate IsOldest(buckets: map<string, Bucket>, ip: string) {
    ip in buckets && forall k :: k in buckets ==> buckets[ip].last <= buckets[k].last
  }

  class TokenBucketRateLimiter {
    const rate: real
    const capacity: real
    const maxBuckets: int
    const cleanupInterval: real
    var buckets: map<string, Bucket>
    var lastCleanup: real

    ghost function State(): Limiter
      reads this
    {
      Limiter(rate, capacity, buckets, maxBuckets, cleanupInterval, lastCleanup)
    }

    constructor (requestsPerMinute: int, maxBuckets: int, cleanupInterval: real, now: real)
      requires requestsPerMinute > 0
      ensures State() == Init(requestsPerMinute, maxBuckets, cleanupInterval, now)
    {
      rate, capacity := requestsPerMinute as real / 60.0, requestsPerMinute as real;
      this.maxBuckets, this.cleanupInterval := maxBuckets, cleanupInterval;
      buckets, lastCleanup := map[], now;
    }

    method CleanupStale(now: real)
      requires rate > 0.0
      modifies this
      ensures State() == Cleanup(old(State()), now)
    {
      var threshold := capacity / rate;
      var was, todo := buckets, buckets.Keys;
      while todo != {}
        invariant todo <= was.Keys
        invariant buckets == map ip | ip in was && (ip in todo || !(now - was[ip].last > threshold)) :: was[ip]
        decreases |todo|
      {
        var ip :| ip in todo;
        if now - was[ip].last > threshold { buckets := buckets - {ip}; }
        todo := todo - {ip};
      }
      lastCleanup := now;
    }

    // The address whose bucket was used longest ago.
    method Oldest() returns (oldest: string)
      requires buckets != map[]
      ensures IsOldest(buckets, oldest)
    {
      var todo := buckets.Keys;
      oldest :| oldest in todo;
      todo := todo - {oldest};
      while todo != {}
        invariant todo <= buckets.Keys && oldest in buckets
        invariant forall k :: k in buckets && k !in todo ==> buckets[oldest].last <= buckets[k].last
        decreases |todo|
      {
        var ip :| ip in todo;
        if buckets[ip].last < buckets[oldest].last { oldest := ip; }
        todo := todo - {ip};
      }
    }

    // With no room at all (no bucket allowed) the source raises.
    method AllowUnlocked(ip: string, now: real) returns (ok: bool, ghost oldest: string)
      requires rate > 0.0 && maxBuckets > 0
      modifies this
      ensures (State(), ok) == Allow(old(State()), ip, now, oldest)
      ensures Evicts(old(State()), ip, now) ==> IsOldest(Cleanup(Swept(old(State()), now), now).buckets, oldest)
    {
      oldest := "";
      if now - lastCleanup > cleanupInterval { CleanupStale(now); }
      if ip !in buckets {
        if |buckets| >= maxBuckets {
          CleanupStale(now);
          if |buckets| >= maxBuckets {
            var victim := Oldest();
            oldest := victim;
            buckets := buckets - {victim};
          }
        }
        buckets := buckets[ip := Bucket(capacity - 1.0, now)];
        return true, oldest;
      }
      var b := buckets[ip];
      var tokens := MinReal(capacity, b.tokens + Refill(now - b.last, rate));
      if tokens >= 1.0 {
        buckets := buckets[ip := Bucket(tokens - 1.0, now)];
        return true, oldest;
      }
      buckets := buckets[ip := Bucket(tokens, now)];
      ok := false;
    }
  }

  function Init(requestsPerMinute: int, maxBuckets: int, cleanupInterval: real, now: real): Limiter {
    Limiter(requestsPerMinute as real / 60.0, requestsPerMinute as real, map[], maxBuckets, cleanupInterval, now)
  }

  // ---- What a bucket means ----

  ghost predicate Good(s: Limiter, now: real) {
    && s.rate > 0.0 && s.capacity >= 1.0
    && forall ip :: ip in s.buckets ==> 0.0 <= s.buckets[ip].tokens <= s.capacity && s.buckets[ip].last <= now
  }

  lemma RefillIs(a: real, b: real, rate: real)
    requires rate > 0.0
    ensures a >= 0.0 ==> Refill(a, rate) >= 0.0
    ensures Refill(a + b, rate) == Refill(a, rate) + Refill(b, rate) && Refill(0.0, rate) == 0.0
  {
  }

  lemma Replenished(s: Limiter, b: Bucket, now: real)
    requires s.rate > 0.0 && s.capacity >= 1.0 && b.tokens >= 0.0 && Stale(s, b, now)
    ensures Refill(now - b.last, s.rate) >= s.capacity
  {
    var full := s.capacity / s.rate;
    assert Refill(full, s.rate) == s.capacity;
    RefillIs(now - b.last - full, full, s.rate);
    assert now - b.last - full + full == now - b.last;
  }

  // A bucket goes stale only when it is full, so dropping it is invisible.
  lemma CleanupUnseen(s: Limiter, now: real, ip: string, later: real)
    requires Good(s, now) && later >= now
    ensures Level(Cleanup(s, now), ip, later) == Level(s, ip, later)
    ensures Good(Cleanup(s, now), now)
  {
    if ip in s.buckets && Stale(s, s.buckets[ip], now) {
      var b := s.buckets[ip];
      Replenished(s, b, now);
      RefillIs(later - now, now - b.last, s.rate);
      assert later - now + (now - b.last) == later - b.last;
    }
  }

  lemma SweptUnseen(s: Limiter, now: real, ip: string, later: real)
    requires Good(s, now) && later >= now
    ensures Level(Swept(s, now), ip, later) == Level(s, ip, later) && Good(Swept(s, now), now)
  {
    CleanupUnseen(s, now, ip, later);
  }

  // A limiter that never cleans up and never runs out of room.
  function Unbounded(s: Limiter, ip: string, now: real): (Limiter, bool) {
    var tokens := Level(s, ip, now);
    if tokens >= 1.0 then (s.(buckets := s.buckets[ip := Bucket(tokens - 1.0, now)]), true)
    else (s.(buckets := s.buckets[ip := Bucket(tokens, now)]), false)
  }

  // The level after a request, seen at a later time.
  function Drained(s: Limiter, ip: string, now: real, later: real): real {
    var level := Level(s, ip, now);
    MinReal(s.capacity, (if level >= 1.0 then level - 1.0 else level) + Refill(later - now, s.rate))
  }

  // The request itself, once there is room for its bucket.
  lemma ServeIs(c: Limiter, ip: string, now: real, other: string, later: real)
    requires Good(c, now) && later >= now
    ensures var (d, ok) := Unbounded(c, ip, now);
      && Good(d, now) && (ok <==> Level(c, ip, now) >= 1.0)
      && Level(d, other, later) == if other == ip then Drained(c, ip, now, later) else Level(c, other, later)
  {
    LevelBounds(c, ip, now);
  }

  // No bucket has to make room, or only one that is full anyway.
  predicate Spares(s: Limiter, ip: string, now: real, oldest: string)
    requires s.rate > 0.0
  {
    Evicts(s, ip, now) ==> Level(s, oldest, now) == s.capacity
  }

  // A request is allowed exactly when its address has a token left; it costs
  // one token and nobody else any - unless a bucket with a debt was evicted.
  lemma AllowIs(s: Limiter, ip: string, now: real, oldest: string, other: string, later: real)
    requires Good(s, now) && later >= now && Spares(s, ip, now, oldest)
    ensures var (d, ok) := Allow(s, ip, now, oldest);
      && Good(d, now) && (ok <==> Level(s, ip, now) >= 1.0) && d.rate == s.rate && d.capacity == s.capacity
      && Level(d, other, later) == if other == ip then Drained(s, ip, now, later) else Level(s, other, later)
  {
    hide Level, Good, Evicts;
    GoodRates(s, now);
    RoomUnseen(s, ip, now, oldest, ip, now);
    RoomUnseen(s, ip, now, oldest, other, later);
    AllowServes(s, ip, now, oldest);
    ServeIs(Room(s, ip, now, oldest), ip, now, other, later);
  }

  // Where the promise ends: a call leaves every other address its tokens
  // exactly when no bucket is evicted or the evicted one is full.
  lemma CallUnseenIff(s: Limiter, ip: string, now: real, oldest: string)
    requires Good(s, now) && (Evicts(s, ip, now) ==> oldest in Cleanup(Swept(s, now), now).buckets)
    ensures Spares(s, ip, now, oldest) <==>
      forall other, later {:trigger Level(Allow(s, ip, now, oldest).0, other, later)} :: later >= now && other != ip ==>
        Level(Allow(s, ip, now, oldest).0, other, later) == Level(s, other, later)
  {
    if Spares(s, ip, now, oldest) {
      forall other, later | later >= now && other != ip
        ensures Level(Allow(s, ip, now, oldest).0, other, later) == Level(s, other, later)
      {
        AllowIs(s, ip, now, oldest, other, later);
      }
    } else {
      assert Level(Allow(s, ip, now, oldest).0, oldest, now) == s.capacity;
    }
  }

  // The buckets after the cleanups the request triggers.
  function Made(s: Limiter, ip: string, now: real): Limiter
    requires s.rate > 0.0
  {
    var c := Swept(s, now);
    if ip !in c.buckets && |c.buckets| >= c.maxBuckets then Cleanup(c, now) else c
  }

  lemma MadeUnseen(s: Limiter, ip: string, now: real, other: string, later: real)
    requires Good(s, now) && later >= now
    ensures Level(Made(s, ip, now), other, later) == Level(s, other, later) && Good(Made(s, ip, now), now)
    ensures Made(s, ip, now).rate == s.rate && Made(s, ip, now).capacity == s.capacity
  {
    SweptUnseen(s, now, other, later);
    CleanupUnseen(Swept(s, now), now, other, later);
  }

  // The buckets the request finds: the oldest one gone if there is no room.
  function Room(s: Limiter, ip: string, now: real, oldest: string): Limiter
    requires s.rate > 0.0
  {
    var c := Made(s, ip, now);
    if Evicts(s, ip, now) then c.(buckets := c.buckets - {oldest}) else c
  }

  lemma RoomUnseen(s: Limiter, ip: string, now: real, oldest: string, other: string, later: real)
    requires Good(s, now) && later >= now && Spares(s, ip, now, oldest)
    ensures var d := Room(s, ip, now, oldest);
      Level(d, other, later) == Level(s, other, later) && Good(d, now) && d.rate == s.rate && d.capacity == s.capacity
  {
    var c := Made(s, ip, now);
    MadeUnseen(s, ip, now, other, later);
    MadeUnseen(s, ip, now, oldest, now);
    if oldest in c.buckets {
      var b := c.buckets[oldest];
      RefillIs(later - now, now - b.last, s.rate);
      assert later - now + (now - b.last) == later - b.last;
    }
  }

  lemma AllowServes(s: Limiter, ip: string, now: real, oldest: string)
    requires Good(s, now)
    ensures Allow(s, ip, now, oldest) == Unbounded(Room(s, ip, now, oldest), ip, now)
  {
    hide Refill, MinReal, Made, Room, Swept, Cleanup, Evicts;
    RoomIs(s, ip, now, oldest);
  }

  lemma RoomIs(s: Limiter, ip: string, now: real, oldest: string)
    requires s.rate > 0.0
    ensures var c := Swept(s, now);
      var d := if |c.buckets| >= c.maxBuckets then Cleanup(c, now) else c;
      && c.rate == Room(s, ip, now, oldest).rate == s.rate
      && c.capacity == Room(s, ip, now, oldest).capacity == s.capacity
      && (ip !in c.buckets ==> ip !in Room(s, ip, now, oldest).buckets)
      && Room(s, ip, now, oldest) ==
         if ip in c.buckets then c
         else if |d.buckets| >= c.maxBuckets then d.(buckets := d.buckets - {oldest}) else d
  {
    hide Stale;
  }

  lemma LevelBounds(s: Limiter, ip: string, now: real)
    requires Good(s, now)
    ensures 0.0 <= Level(s, ip, now) <= s.capacity
  {
    if ip in s.buckets { RefillIs(now - s.buckets[ip].last, 0.0, s.rate); }
  }

  // ---- Which buckets go ----

  // A cleanup drops exactly the buckets in which, since they were last used,
  // more tokens have come in than a bucket holds.
  lemma CleanupDropsIff(s: Limiter, now: real, ip: string)
    requires s.rate > 0.0 && ip in s.buckets
    ensures ip !in Cleanup(s, now).buckets <==> Refill(now - s.buckets[ip].last, s.rate) > s.capacity
  {
    var idle, full := now - s.buckets[ip].last, s.capacity / s.rate;
    assert Refill(full, s.rate) == s.capacity;
    RefillIs(idle - full, full, s.rate);
    RefillIs(full - idle, idle, s.rate);
    assert idle - full + full == idle && full - idle + idle == full;
    if idle > full { assert Refill(idle - full, s.rate) > 0.0; }
  }

  // The addresses whose buckets a cleanup would leave.
  ghost function Fresh(s: Limiter, now: real): set<string> {
    set ip | ip in s.buckets && Refill(now - s.buckets[ip].last, s.rate) <= s.capacity
  }

  // A bucket that is still filling up goes only for a new address that finds
  // no room among at least as many such buckets as are allowed.
  lemma EvictsOnlyWhenFull(s: Limiter, ip: string, now: real, oldest: string)
    requires s.rate > 0.0 && oldest in Fresh(s, now) && oldest != ip
    requires oldest !in Allow(s, ip, now, oldest).0.buckets
    ensures ip !in Fresh(s, now) && |Fresh(s, now)| >= s.maxBuckets
  {
    hide Refill, Stale;
    SweepLeaves(s, now);
    var c := Swept(s, now);
    assert oldest in c.buckets;
    assert ip !in c.buckets;
    assert |Cleanup(c, now).buckets| >= s.maxBuckets;
    assert Cleanup(c, now).buckets.Keys == Fresh(s, now);
    assert |Cleanup(c, now).buckets| == |Cleanup(c, now).buckets.Keys|;
  }

  lemma SweepLeaves(s: Limiter, now: real)
    requires s.rate > 0.0
    ensures Cleanup(s, now).buckets.Keys == Fresh(s, now)
    ensures Cleanup(Swept(s, now), now).buckets == Cleanup(s, now).buckets
    ensures forall ip :: ip in Fresh(s, now) ==> ip in Swept(s, now).buckets
  {
    forall ip | ip in s.buckets
      ensures ip in Cleanup(s, now).buckets <==> ip in Fresh(s, now)
    {
      CleanupDropsIff(s, now, ip);
    }
  }

  // There are never more buckets than allowed.
  lemma BucketsAreBounded(s: Limiter, ip: string, now: real, oldest: string)
    requires Good(s, now) && s.maxBuckets > 0 && |s.buckets| <= s.maxBuckets
    requires Evicts(s, ip, now) ==> oldest in Cleanup(Swept(s, now), now).buckets
    ensures |Allow(s, ip, now, oldest).0.buckets| <= s.maxBuckets
  {
    hide Stale, Level, Room, Cleanup, Swept, Evicts, Allow;
    var r := Room(s, ip, now, oldest);
    RoomFits(s, ip, now, oldest);
    AllowServes(s, ip, now, oldest);
    var d := Unbounded(r, ip, now).0;
    assert d.buckets.Keys == r.buckets.Keys + {ip};
    assert |d.buckets| == |d.buckets.Keys| && |r.buckets| == |r.buckets.Keys|;
    if ip in r.buckets { assert d.buckets.Keys == r.buckets.Keys; }
  }

  lemma RoomFits(s: Limiter, ip: string, now: real, oldest: string)
    requires s.rate > 0.0 && s.maxBuckets > 0 && |s.buckets| <= s.maxBuckets
    requires Evicts(s, ip, now) ==> oldest in Cleanup(Swept(s, now), now).buckets
    ensures var r := Room(s, ip, now, oldest);
      |r.buckets| <= s.maxBuckets && (ip !in r.buckets ==> |r.buckets| < s.maxBuckets)
  {
    hide Stale;
    var c := Swept(s, now);
    Fewer(s.buckets, Cleanup(s, now).buckets);
    Fewer(c.buckets, Cleanup(c, now).buckets);
    if Evicts(s, ip, now) { OneFewer(Cleanup(c, now).buckets, oldest); }
  }

  lemma Fewer(a: map<string, Bucket>, b: map<string, Bucket>)
    requires b.Keys <= a.Keys
    ensures |b| <= |a|
  {
    SubsetSize(b.Keys, a.Keys);
    assert |a| == |a.Keys| && |b| == |b.Keys|;
  }

  lemma {:induction false} SubsetSize(a: set<string>, b: set<string>)
    requires a <= b
    ensures |a| <= |b|
  {
    if a != {} {
      var x :| x in a;
      SubsetSize(a - {x}, b - {x});
    }
  }

  lemma OneFewer(a: map<string, Bucket>, ip: string)
    requires ip in a
    ensures |a - {ip}| == |a| - 1
  {
    assert (a - {ip}).Keys == a.Keys - {ip};
    assert |a - {ip}| == |(a - {ip}).Keys| && |a| == |a.Keys|;
  }

  // ---- Runs ----

  datatype Request = Request(ip: string, at: real, oldest: string)

  ghost predicate Timed(reqs: seq<Request>, t0: real, t1: real)
    decreases |reqs|
  {
    if reqs == [] then t0 <= t1 else t0 <= reqs[0].at && Timed(reqs[1..], reqs[0].at, t1)
  }

  // Nobody's bucket has to make room in this run before it is full.
  ghost predicate Roomy(s: Limiter, reqs: seq<Request>)
    requires s.rate > 0.0
    decreases |reqs|
  {
    reqs == [] || (Spares(s, reqs[0].ip, reqs[0].at, reqs[0].oldest)
                   && Roomy(Allow(s, reqs[0].ip, reqs[0].at, reqs[0].oldest).0, reqs[1..]))
  }

  ghost function Decisions(s: Limiter, reqs: seq<Request>): (r: seq<bool>)
    requires s.rate > 0.0
    ensures |r| == |reqs|
    decreases |reqs|
  {
    if reqs == [] then []
    else
      var (d, ok) := Allow(s, reqs[0].ip, reqs[0].at, reqs[0].oldest);
      [ok] + Decisions(d, reqs[1..])
  }

  ghost function AllowedCount(reqs: seq<Request>, decisions: seq<bool>, ip: string): nat
    requires |reqs| == |decisions|
    decreases |reqs|
  {
    if reqs == [] then 0
    else (if reqs[0].ip == ip && decisions[0] then 1 else 0) + AllowedCount(reqs[1..], decisions[1..], ip)
  }

  lemma {:induction false} Budget(s: Limiter, reqs: seq<Request>, ip: string, t0: real, t1: real)
    requires Good(s, t0) && Timed(reqs, t0, t1) && Roomy(s, reqs)
    ensures t0 <= t1 && AllowedCount(reqs, Decisions(s, reqs), ip) as real <= Level(s, ip, t0) + Refill(t1 - t0, s.rate)
    decreases |reqs|
  {
    if reqs == [] {
      LevelBounds(s, ip, t0);
      RefillIs(t1 - t0, 0.0, s.rate);
    } else {
      var r := reqs[0];
      var (d, ok) := Allow(s, r.ip, r.at, r.oldest);
      assert Decisions(s, reqs)[1..] == Decisions(d, reqs[1..]);
      hide Allow, Spares, Level, Refill, Good;
      GoodLater(s, t0, r.at);
      AllowIs(s, r.ip, r.at, r.oldest, ip, r.at);
      RateKept(s, t0);
      Budget(d, reqs[1..], ip, r.at, t1);
      LevelGrows(s, ip, t0, r.at);
      Spent(s, r.ip, r.at);
      RefillIs(t1 - r.at, r.at - t0, s.rate);
      assert t1 - r.at + (r.at - t0) == t1 - t0;
    }
  }

  lemma RateKept(s: Limiter, now: real)
    requires Good(s, now)
    ensures s.rate > 0.0
  {
  }

  // A request takes a whole token or nothing.
  lemma Spent(s: Limiter, ip: string, now: real)
    requires Good(s, now)
    ensures Drained(s, ip, now, now) == Level(s, ip, now) - if Level(s, ip, now) >= 1.0 then 1.0 else 0.0
  {
    LevelBounds(s, ip, now);
    RefillIs(0.0, 0.0, s.rate);
  }

  lemma GoodLater(s: Limiter, t0: real, t1: real)
    requires Good(s, t0) && t0 <= t1
    ensures Good(s, t1)
  {
  }

  lemma LevelGrows(s: Limiter, ip: string, t0: real, t1: real)
    requires Good(s, t0) && t0 <= t1
    ensures Level(s, ip, t1) <= Level(s, ip, t0) + Refill(t1 - t0, s.rate)
  {
    RefillIs(t1 - t0, 0.0, s.rate);
    if ip in s.buckets {
      var b := s.buckets[ip];
      RefillIs(t1 - t0, t0 - b.last, s.rate);
      assert t1 - t0 + (t0 - b.last) == t1 - b.last;
    }
  }

  // Over any interval, from any state the limiter can be in, one address is
  // allowed at most capacity + rate * (t1 - t0) requests.
  lemma RateIsBounded(s: Limiter, reqs: seq<Request>, ip: string, t0: real, t1: real)
    requires Good(s, t0) && Timed(reqs, t0, t1) && Roomy(s, reqs)
    ensures AllowedCount(reqs, Decisions(s, reqs), ip) as real <= s.capacity + s.rate * (t1 - t0)
  {
    hide Roomy, Decisions, AllowedCount, Level, Timed;
    Budget(s, reqs, ip, t0, t1);
    LevelBounds(s, ip, t0);
  }

  // As the service is configured: in any stretch of minutes an address gets
  // through at most as often as it may in those minutes and one more.
  lemma RatePerMinute(requestsPerMinute: int, maxBuckets: int, interval: real, reqs: seq<Request>, ip: string, t0: real,
                      minutes: real)
    requires requestsPerMinute > 0 && Timed(reqs, t0, t0 + 60.0 * minutes)
    requires Roomy(Init(requestsPerMinute, maxBuckets, interval, t0), reqs)
    ensures var s := Init(requestsPerMinute, maxBuckets, interval, t0);
      AllowedCount(reqs, Decisions(s, reqs), ip) as real <= requestsPerMinute as real * (minutes + 1.0)
  {
    var s := Init(requestsPerMinute, maxBuckets, interval, t0);
    hide *;
    InitGood(requestsPerMinute, maxBuckets, interval, t0);
    var t1 := t0 + 60.0 * minutes;
    RateIsBounded(s, reqs, ip, t0, t1);
    PerMinute(requestsPerMinute, maxBuckets, interval, t0, t1, minutes);
  }

  lemma InitGood(requestsPerMinute: int, maxBuckets: int, interval: real, t0: real)
    requires requestsPerMinute > 0
    ensures var s := Init(requestsPerMinute, maxBuckets, interval, t0); Good(s, t0) && s.rate > 0.0
  {
  }

  lemma PerMinute(requestsPerMinute: int, maxBuckets: int, interval: real, t0: real, t1: real, minutes: real)
    requires t1 == t0 + 60.0 * minutes
    ensures var s := Init(requestsPerMinute, maxBuckets, interval, t0);
      s.capacity + s.rate * (t1 - t0) == requestsPerMinute as real * (minutes + 1.0)
  {
    var most := requestsPerMinute as real;
    var rate := most / 60.0;
    assert most == 60.0 * rate && t1 - t0 == 60.0 * minutes;
    assert rate * (60.0 * minutes) == 60.0 * rate * minutes;
  }

  // ---- Cleaning up changes no decision ----

  ghost function Plainly(s: Limiter, reqs: seq<Request>): (r: seq<bool>)
    decreases |reqs|
  {
    if reqs == [] then []
    else [Unbounded(s, reqs[0].ip, reqs[0].at).1] + Plainly(Unbounded(s, reqs[0].ip, reqs[0].at).0, reqs[1..])
  }

  ghost predicate Matches(s: Limiter, u: Limiter, now: real) {
    && u.rate == s.rate && u.capacity == s.capacity
    && forall ip, later {:trigger Level(u, ip, later)} :: later >= now ==> Level(u, ip, later) == Level(s, ip, later)
  }

  lemma UnboundedIs(u: Limiter, ip: string, now: real, other: string, later: real)
    requires u.rate > 0.0 && u.capacity >= 1.0 && later >= now
    ensures Level(Unbounded(u, ip, now).0, other, later) ==
            if other == ip then Drained(u, ip, now, later) else Level(u, other, later)
  {
  }

  lemma GoodRates(s: Limiter, now: real)
    requires Good(s, now)
    ensures s.rate > 0.0 && s.capacity >= 1.0
  {
  }

  lemma UnboundedDecides(u: Limiter, ip: string, now: real)
    requires u.rate > 0.0 && u.capacity >= 1.0
    ensures var (v, ok) := Unbounded(u, ip, now);
      ok == (Level(u, ip, now) >= 1.0) && v.rate == u.rate && v.capacity == u.capacity
  {
  }

  lemma StepMatches(s: Limiter, u: Limiter, r: Request)
    requires Good(s, r.at) && Matches(s, u, r.at) && Spares(s, r.ip, r.at, r.oldest)
    ensures Good(Allow(s, r.ip, r.at, r.oldest).0, r.at)
    ensures Matches(Allow(s, r.ip, r.at, r.oldest).0, Unbounded(u, r.ip, r.at).0, r.at)
    ensures Allow(s, r.ip, r.at, r.oldest).1 == Unbounded(u, r.ip, r.at).1
  {
    hide Allow, Level, Spares, Refill, Unbounded, Good;
    GoodRates(s, r.at);
    var d, v := Allow(s, r.ip, r.at, r.oldest).0, Unbounded(u, r.ip, r.at).0;
    AllowIs(s, r.ip, r.at, r.oldest, r.ip, r.at);
    RateKept(s, r.at);
    assert Level(u, r.ip, r.at) == Level(s, r.ip, r.at);
    UnboundedDecides(u, r.ip, r.at);
    forall ip, later | later >= r.at ensures Level(v, ip, later) == Level(d, ip, later) {
      AllowIs(s, r.ip, r.at, r.oldest, ip, later);
      UnboundedIs(u, r.ip, r.at, ip, later);
      assert Level(u, ip, later) == Level(s, ip, later);
    }
  }

  lemma {:induction false} CleanupNeverDecides(s: Limiter, u: Limiter, reqs: seq<Request>, t0: real, t1: real)
    requires Good(s, t0) && Matches(s, u, t0) && Timed(reqs, t0, t1) && Roomy(s, reqs)
    ensures Decisions(s, reqs) == Plainly(u, reqs)
    decreases |reqs|
  {
    if reqs != [] {
      var r := reqs[0];
      GoodLater(s, t0, r.at);
      assert Matches(s, u, r.at);
      StepMatches(s, u, r);
      hide Allow, Unbounded, Good, Matches;
      CleanupNeverDecides(Allow(s, r.ip, r.at, r.oldest).0, Unbounded(u, r.ip, r.at).0, reqs[1..], r.at, t1);
    }
  }

  // From the start, the limiter decides as one that never cleans up.
  lemma CleanupIsInvisible(requestsPerMinute: int, maxBuckets: int, interval: real, reqs: seq<Request>, t0: real,
                           t1: real)
    requires requestsPerMinute > 0 && Timed(reqs, t0, t1)
    requires Roomy(Init(requestsPerMinute, maxBuckets, interval, t0), reqs)
    ensures var s := Init(requestsPerMinute, maxBuckets, interval, t0); Decisions(s, reqs) == Plainly(s, reqs)
  {
    var s := Init(requestsPerMinute, maxBuckets, interval, t0);
    CleanupNeverDecides(s, s, reqs, t0, t1);
  }

  // Evicting the oldest bucket gives its address a full one: with room for
  // one bucket and one request a minute, two are allowed at the same instant.
  lemma EvictionBreaksTheBound()
    ensures var s := Init(1, 1, 300.0, 0.0);
      var reqs := [Request("a", 0.0, ""), Request("b", 0.0, "a"), Request("a", 0.0, "b")];
      && Timed(reqs, 0.0, 0.0) && !Roomy(s, reqs)
      && AllowedCount(reqs, Decisions(s, reqs), "a") == 2
      && 2.0 > s.capacity + s.rate * (0.0 - 0.0)
  {
    var s := Init(1, 1, 300.0, 0.0);
    var b := Bucket(0.0, 0.0);
    var s1 := s.(buckets := map["a" := b]);
    var s2 := s.(buckets := map["b" := b]);
    assert Allow(s, "a", 0.0, "") == (s1, true);
    assert Cleanup(s1, 0.0) == s1 && Cleanup(s2, 0.0) == s2;
    assert s1.buckets.Keys == {"a"} && s2.buckets.Keys == {"b"};
    assert |s1.buckets| == |s1.buckets.Keys| == 1 && |s2.buckets| == |s2.buckets.Keys| == 1;
    assert s1.buckets - {"a"} == map[] && s2.buckets - {"b"} == map[];
    assert Swept(s1, 0.0) == s1 && Swept(s2, 0.0) == s2;
    assert "b" !in s1.buckets && "a" !in s2.buckets;
    assert Allow(s1, "b", 0.0, "a") == (s2, true);
    assert Allow(s2, "a", 0.0, "b") == (s1, true);
    var r0, r1, r2 := Request("a", 0.0, ""), Request("b", 0.0, "a"), Request("a", 0.0, "b");
    var reqs := [r0, r1, r2];
    assert reqs[1..] == [r1, r2] && [r1, r2][1..] == [r2] && [r2][1..] == [];
    assert Decisions(s2, [r2]) == [true];
    assert Decisions(s1, [r1, r2]) == [true, true];
    assert Decisions(s, reqs) == [true, true, true];
    assert AllowedCount([r2], [true], "a") == 1;
    assert [true, true][1..] == [true] && [true, true, true][1..] == [true, true];
    assert AllowedCount([r1, r2], [true, true], "a") == 1;
    assert Evicts(s1, "b", 0.0);
    assert Timed([r2], 0.0, 0.0) && Timed([r1, r2], 0.0, 0.0);
  }
}
