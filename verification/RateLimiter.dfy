/** The limiter with one global and many per-address buckets, and its cleanup of stale buckets. */
module RateLimiter {
  import opened TokenBucket

  type Ip = string

  datatype Config = Config(globalRate: real, ipRate: real, burst: real, interval: real) {
    predicate Valid() { globalRate >= 0.0 && ipRate > 0.0 && burst >= 0.0 && interval >= burst }
    predicate Sane() { globalRate >= 0.0 && ipRate >= 0.0 && burst >= 0.0 }
    function IpCapacity(): real { ipRate * burst }
    function GlobalCapacity(): real { globalRate * burst }
  }

  /** `cleans` is false for the reference limiter that never deletes a bucket. */
  datatype Limiter = Limiter(
    cleans: bool,
    global: Bucket,
    buckets: map<Ip, Bucket>,
    lastSeen: map<Ip, real>,
    lastCleanup: real)

  /** A request, or the read of the remaining tokens after an allowed response. */
  datatype Op = Check(ip: Ip, at: real) | Remaining(ip: Ip, at: real)

  datatype Answer = Allowed | Limited(wait: Wait) | Left(tokens: real)

  function Start(cfg: Config, cleans: bool, at: real): Limiter {
    Limiter(cleans, New(cfg.globalRate, cfg.globalRate * cfg.burst, at), map[], map[], at)
  }

  predicate Stale(cfg: Config, l: Limiter, ip: Ip, now: real) {
    ip in l.lastSeen && now - l.lastSeen[ip] > cfg.interval
  }

  /** `_maybe_cleanup`. */
  function Cleanup(cfg: Config, l: Limiter, now: real): Limiter {
    if !l.cleans || now - l.lastCleanup < cfg.interval then l
    else l.(buckets := map ip | ip in l.buckets && !Stale(cfg, l, ip, now) :: l.buckets[ip],
            lastSeen := map ip | ip in l.lastSeen && !Stale(cfg, l, ip, now) :: l.lastSeen[ip],
            lastCleanup := now)
  }

  /** `_get_ip_bucket`. */
  function Touch(cfg: Config, l: Limiter, ip: Ip, now: real): (r: Limiter)
    ensures ip in r.buckets
  {
    l.(lastSeen := l.lastSeen[ip := now],
       buckets := if ip in l.buckets then l.buckets else l.buckets[ip := New(cfg.ipRate, cfg.IpCapacity(), now)])
  }

  function Step(cfg: Config, l: Limiter, op: Op): (Limiter, Answer) {
    match op
    case Remaining(ip, now) =>
      var r := Touch(cfg, l, ip, now);
      (r, Left(Refill(r.buckets[ip], now).tokens))
    case Check(ip, now) =>
      var c := Cleanup(cfg, l, now);
      var poll := Poll(now, 1.0);
      var g := c.(global := Consume(c.global, poll));
      if !Grants(c.global, poll) then (g, Limited(TimeUntilAvailable(g.global)))
      else
        var r := Touch(cfg, g, ip, now);
        var b := r.buckets[ip];
        var r' := r.(buckets := r.buckets[ip := Consume(b, poll)]);
        (r', if Grants(b, poll) then Allowed else Limited(TimeUntilAvailable(Consume(b, poll))))
  }

  predicate Ordered(from: real, ops: seq<Op>)
    decreases |ops|
  {
    ops == [] || (ops[0].at >= from && Ordered(ops[0].at, ops[1..]))
  }

  function Answers(cfg: Config, l: Limiter, ops: seq<Op>): seq<Answer>
    decreases |ops|
  {
    if ops == [] then []
    else [Step(cfg, l, ops[0]).1] + Answers(cfg, Step(cfg, l, ops[0]).0, ops[1..])
  }

  function RunOps(cfg: Config, l: Limiter, ops: seq<Op>): Limiter
    decreases |ops|
  {
    if ops == [] then l else RunOps(cfg, Step(cfg, l, ops[0]).0, ops[1..])
  }

  /** The time of the last operation. */
  function End(from: real, ops: seq<Op>): real
    decreases |ops|
  {
    if ops == [] then from else End(ops[0].at, ops[1..])
  }

  /** A state the limiter can be in at time `now`. */
  ghost predicate Reached(cfg: Config, l: Limiter, now: real) {
    exists at, ops :: Ordered(at, ops) && End(at, ops) <= now && RunOps(cfg, Start(cfg, true, at), ops) == l
  }

  lemma {:induction false} RunSnoc(cfg: Config, l: Limiter, ops: seq<Op>, op: Op)
    ensures RunOps(cfg, l, ops + [op]) == Step(cfg, RunOps(cfg, l, ops), op).0
    decreases |ops|
  {
    if ops == [] {
      assert [] + [op] == [op] && [op][1..] == [];
    } else {
      assert (ops + [op])[1..] == ops[1..] + [op] && (ops + [op])[0] == ops[0];
      RunSnoc(cfg, Step(cfg, l, ops[0]).0, ops[1..], op);
    }
  }

  lemma {:induction false} EndSnoc(from: real, ops: seq<Op>, op: Op)
    requires Ordered(from, ops) && End(from, ops) <= op.at
    ensures Ordered(from, ops + [op]) && End(from, ops + [op]) == op.at
    decreases |ops|
  {
    if ops == [] {
      assert [] + [op] == [op] && [op][1..] == [];
    } else {
      assert (ops + [op])[1..] == ops[1..] + [op] && (ops + [op])[0] == ops[0];
      EndNotBefore(ops[0].at, ops[1..]);
      EndSnoc(ops[0].at, ops[1..], op);
    }
  }

  lemma {:induction false} EndNotBefore(from: real, ops: seq<Op>)
    requires Ordered(from, ops)
    ensures from <= End(from, ops)
    decreases |ops|
  {
    if ops != [] {
      EndNotBefore(ops[0].at, ops[1..]);
    }
  }

  lemma {:induction false} ReachedStart(cfg: Config, at: real)
    ensures Reached(cfg, Start(cfg, true, at), at)
  {
    assert Ordered(at, []) && End(at, []) == at && RunOps(cfg, Start(cfg, true, at), []) == Start(cfg, true, at);
  }

  lemma {:induction false} ReachedStep(cfg: Config, l: Limiter, now: real, op: Op)
    requires Reached(cfg, l, now) && now <= op.at
    ensures Reached(cfg, Step(cfg, l, op).0, op.at)
  {
    var at, ops :| Ordered(at, ops) && End(at, ops) <= now && RunOps(cfg, Start(cfg, true, at), ops) == l;
    EndSnoc(at, ops, op);
    RunSnoc(cfg, Start(cfg, true, at), ops, op);
  }

  // ------------------------------------------------------------------
  // What every run keeps
  // ------------------------------------------------------------------

  predicate GlobalOk(cfg: Config, b: Bucket, now: real) {
    b.Valid() && b.rate == cfg.globalRate && b.capacity == cfg.GlobalCapacity() && b.last <= now
  }

  predicate SeenOk(cfg: Config, l: Limiter, ip: Ip, now: real) {
    ip in l.buckets ==>
      BucketOk(cfg, l.buckets[ip], now) && (ip in l.lastSeen ==> l.buckets[ip].last <= l.lastSeen[ip] <= now)
  }

  ghost predicate LimiterOk(cfg: Config, l: Limiter, now: real) {
    GlobalOk(cfg, l.global, now) && forall ip :: SeenOk(cfg, l, ip, now)
  }

  lemma {:induction false} Capacities(cfg: Config)
    requires cfg.Sane()
    ensures cfg.IpCapacity() >= 0.0 && cfg.GlobalCapacity() >= 0.0
  {
    Scale(0.0, cfg.burst, cfg.ipRate);
    Scale(0.0, cfg.burst, cfg.globalRate);
  }

  lemma {:induction false} OkStart(cfg: Config, cleans: bool, at: real)
    requires cfg.Sane()
    ensures LimiterOk(cfg, Start(cfg, cleans, at), at)
  {
    Capacities(cfg);
  }

  lemma {:induction false} OkLater(cfg: Config, l: Limiter, now: real, later: real)
    requires LimiterOk(cfg, l, now) && now <= later
    ensures LimiterOk(cfg, l, later)
  {
    forall ip ensures SeenOk(cfg, l, ip, later) {
      assert SeenOk(cfg, l, ip, now);
    }
  }

  lemma {:induction false} OkCleanup(cfg: Config, l: Limiter, now: real)
    requires LimiterOk(cfg, l, now)
    ensures LimiterOk(cfg, Cleanup(cfg, l, now), now)
  {
    forall ip ensures SeenOk(cfg, Cleanup(cfg, l, now), ip, now) {
      assert SeenOk(cfg, l, ip, now);
    }
  }

  lemma {:induction false} OkTouch(cfg: Config, l: Limiter, ip: Ip, now: real)
    requires cfg.Sane() && LimiterOk(cfg, l, now)
    ensures LimiterOk(cfg, Touch(cfg, l, ip, now), now)
  {
    Capacities(cfg);
    forall other ensures SeenOk(cfg, Touch(cfg, l, ip, now), other, now) {
      assert SeenOk(cfg, l, other, now);
    }
  }

  lemma {:induction false} OkBuckets(cfg: Config, l: Limiter, now: real, g: Bucket)
    requires LimiterOk(cfg, l, now) && GlobalOk(cfg, g, now)
    ensures LimiterOk(cfg, l.(global := g), now)
  {
    forall ip ensures SeenOk(cfg, l.(global := g), ip, now) {
      assert SeenOk(cfg, l, ip, now);
    }
  }

  lemma {:induction false} OkConsume(cfg: Config, l: Limiter, ip: Ip, now: real)
    requires LimiterOk(cfg, l, now) && ip in l.buckets && ip in l.lastSeen && l.lastSeen[ip] == now
    ensures LimiterOk(cfg, l.(buckets := l.buckets[ip := Consume(l.buckets[ip], Poll(now, 1.0))]), now)
  {
    var l' := l.(buckets := l.buckets[ip := Consume(l.buckets[ip], Poll(now, 1.0))]);
    assert SeenOk(cfg, l, ip, now);
    ConsumeValid(l.buckets[ip], Poll(now, 1.0));
    forall other ensures SeenOk(cfg, l', other, now) {
      assert SeenOk(cfg, l, other, now);
    }
  }

  lemma {:induction false} OkStep(cfg: Config, l: Limiter, op: Op)
    requires cfg.Sane() && LimiterOk(cfg, l, op.at)
    ensures LimiterOk(cfg, Step(cfg, l, op).0, op.at)
  {
    var now := op.at;
    match op
    case Remaining(ip, _) => OkTouch(cfg, l, ip, now);
    case Check(ip, _) =>
      var c := Cleanup(cfg, l, now);
      OkCleanup(cfg, l, now);
      ConsumeValid(c.global, Poll(now, 1.0));
      var g := c.(global := Consume(c.global, Poll(now, 1.0)));
      OkBuckets(cfg, c, now, g.global);
      if Grants(c.global, Poll(now, 1.0)) {
        OkTouch(cfg, g, ip, now);
        OkConsume(cfg, Touch(cfg, g, ip, now), ip, now);
      }
  }

  lemma {:induction false} OkRun(cfg: Config, l: Limiter, from: real, ops: seq<Op>)
    requires cfg.Sane() && LimiterOk(cfg, l, from) && Ordered(from, ops)
    ensures LimiterOk(cfg, RunOps(cfg, l, ops), End(from, ops))
    decreases |ops|
  {
    if ops != [] {
      OkLater(cfg, l, from, ops[0].at);
      OkStep(cfg, l, ops[0]);
      OkRun(cfg, Step(cfg, l, ops[0]).0, ops[0].at, ops[1..]);
    }
  }

  lemma {:induction false} OkReached(cfg: Config, l: Limiter, now: real)
    requires cfg.Sane() && Reached(cfg, l, now)
    ensures LimiterOk(cfg, l, now)
  {
    var at, ops :| Ordered(at, ops) && End(at, ops) <= now && RunOps(cfg, Start(cfg, true, at), ops) == l;
    OkStart(cfg, true, at);
    OkRun(cfg, Start(cfg, true, at), at, ops);
    OkLater(cfg, l, End(at, ops), now);
  }

  // ------------------------------------------------------------------
  // Buckets that look alike from some time on
  // ------------------------------------------------------------------

  /** The bucket has refilled completely by time `t`. */
  predicate FullAt(b: Bucket, t: real) {
    b.last <= t && b.tokens + (t - b.last) * b.rate >= b.capacity
  }

  lemma {:induction false} FullRefills(b: Bucket, t: real)
    requires FullAt(b, t)
    ensures Refill(b, t) == b.(tokens := b.capacity, last := t)
  {
  }

  lemma {:induction false} FullLater(b: Bucket, t: real, u: real)
    requires FullAt(b, t) && t <= u && b.rate >= 0.0
    ensures FullAt(b, u)
  {
    SplitTime(b.last, t, u, b.rate);
    Scale(t, u, b.rate);
  }

  /** Unseen for longer than the burst, a bucket is full. */
  lemma {:induction false} StaleIsFull(cfg: Config, b: Bucket, seen: real, now: real, capacity: real)
    requires cfg.Valid() && b.Valid() && b.rate == cfg.ipRate && b.capacity == capacity == cfg.ipRate * cfg.burst
    requires b.last <= seen && now - seen > cfg.interval
    ensures FullAt(b, now)
  {
    var d := now - b.last;
    MulMonoR(cfg.burst, d, cfg.ipRate);
  }

  lemma {:induction false} MulMonoR(a: real, b: real, r: real)
    requires a <= b && r >= 0.0
    ensures r * a <= b * r
  {
    Scale(a, b, r);
    assert (b - a) * r == b * r - a * r;
  }

  predicate BucketOk(cfg: Config, b: Bucket, now: real) {
    b.Valid() && b.rate == cfg.ipRate && b.capacity == cfg.IpCapacity() && b.last <= now
  }

  /** The two buckets answer alike from `now` on. */
  predicate Alike(a: Bucket, b: Bucket, now: real) {
    a == b || (FullAt(a, now) && FullAt(b, now) && a.rate == b.rate && a.capacity == b.capacity)
  }

  predicate SameIp(cfg: Config, a: Limiter, r: Limiter, ip: Ip, now: real) {
    && (ip in a.buckets <==> ip in a.lastSeen)
    && (ip in r.buckets ==> BucketOk(cfg, r.buckets[ip], now))
    && (ip in a.buckets ==>
          && ip in r.buckets
          && BucketOk(cfg, a.buckets[ip], now)
          && a.buckets[ip].last <= a.lastSeen[ip] <= now
          && Alike(a.buckets[ip], r.buckets[ip], now))
    && (ip !in a.buckets && ip in r.buckets ==> FullAt(r.buckets[ip], now))
  }

  /** The cleaning limiter `a` and the reference `r` are indistinguishable from `now` on. */
  ghost predicate Same(cfg: Config, a: Limiter, r: Limiter, now: real) {
    && a.global == r.global
    && !r.cleans
    && forall ip :: SameIp(cfg, a, r, ip, now)
  }

  lemma {:induction false} SameLater(cfg: Config, a: Limiter, r: Limiter, now: real, later: real)
    requires cfg.Valid() && Same(cfg, a, r, now) && now <= later
    ensures Same(cfg, a, r, later)
  {
    forall ip ensures SameIp(cfg, a, r, ip, later) {
      assert SameIp(cfg, a, r, ip, now);
      if ip in r.buckets && FullAt(r.buckets[ip], now) {
        FullLater(r.buckets[ip], now, later);
      }
      if ip in a.buckets && FullAt(a.buckets[ip], now) {
        FullLater(a.buckets[ip], now, later);
      }
    }
  }

  lemma {:induction false} AlikeFull(a: Bucket, b: Bucket, now: real)
    requires Alike(a, b, now) && FullAt(a, now)
    ensures FullAt(b, now)
  {
  }

  /** Deleting stale buckets keeps the two alike. */
  lemma {:induction false} SameCleanup(cfg: Config, a: Limiter, r: Limiter, now: real)
    requires cfg.Valid() && Same(cfg, a, r, now)
    ensures Same(cfg, Cleanup(cfg, a, now), r, now)
  {
    var c := Cleanup(cfg, a, now);
    forall ip ensures SameIp(cfg, c, r, ip, now) {
      assert SameIp(cfg, a, r, ip, now);
      if ip in a.buckets && ip !in c.buckets {
        StaleIsFull(cfg, a.buckets[ip], a.lastSeen[ip], now, cfg.IpCapacity());
        AlikeFull(a.buckets[ip], r.buckets[ip], now);
      }
    }
  }

  lemma {:induction false} NewIsFull(cfg: Config, now: real)
    requires cfg.Valid()
    ensures FullAt(New(cfg.ipRate, cfg.IpCapacity(), now), now)
    ensures BucketOk(cfg, New(cfg.ipRate, cfg.IpCapacity(), now), now)
  {
    MulMonoR(0.0, cfg.burst, cfg.ipRate);
    assert (now - now) * cfg.ipRate == 0.0;
  }

  lemma {:induction false} SameTouch(cfg: Config, a: Limiter, r: Limiter, ip: Ip, now: real)
    requires cfg.Valid() && Same(cfg, a, r, now)
    ensures Same(cfg, Touch(cfg, a, ip, now), Touch(cfg, r, ip, now), now)
    ensures Alike(Touch(cfg, a, ip, now).buckets[ip], Touch(cfg, r, ip, now).buckets[ip], now)
  {
    var a', r' := Touch(cfg, a, ip, now), Touch(cfg, r, ip, now);
    NewIsFull(cfg, now);
    forall other ensures SameIp(cfg, a', r', other, now) {
      assert SameIp(cfg, a, r, other, now);
    }
    assert SameIp(cfg, a', r', ip, now);
  }

  /** Alike buckets refill alike, so they grant alike and become equal. */
  lemma {:induction false} AlikeConsume(a: Bucket, b: Bucket, now: real)
    requires Alike(a, b, now)
    ensures Refill(a, now) == Refill(b, now)
  {
    if a != b {
      FullRefills(a, now);
      FullRefills(b, now);
    }
  }

  lemma {:induction false} SameConsume(cfg: Config, a: Limiter, r: Limiter, ip: Ip, now: real)
    requires cfg.Valid() && Same(cfg, a, r, now) && ip in a.buckets && ip in r.buckets && a.lastSeen.Keys >= {ip}
    requires a.lastSeen[ip] == now
    ensures var p := Poll(now, 1.0);
            && Grants(a.buckets[ip], p) == Grants(r.buckets[ip], p)
            && Consume(a.buckets[ip], p) == Consume(r.buckets[ip], p)
            && Same(cfg, a.(buckets := a.buckets[ip := Consume(a.buckets[ip], p)]),
                    r.(buckets := r.buckets[ip := Consume(r.buckets[ip], p)]), now)
  {
    var p := Poll(now, 1.0);
    assert SameIp(cfg, a, r, ip, now);
    AlikeConsume(a.buckets[ip], r.buckets[ip], now);
    ConsumeValid(a.buckets[ip], p);
    var a' := a.(buckets := a.buckets[ip := Consume(a.buckets[ip], p)]);
    var r' := r.(buckets := r.buckets[ip := Consume(r.buckets[ip], p)]);
    forall other ensures SameIp(cfg, a', r', other, now) {
      assert SameIp(cfg, a, r, other, now);
    }
  }

  lemma {:induction false} SameGlobal(cfg: Config, a: Limiter, r: Limiter, now: real, g: Bucket)
    requires Same(cfg, a, r, now)
    ensures Same(cfg, a.(global := g), r.(global := g), now)
  {
    forall ip ensures SameIp(cfg, a.(global := g), r.(global := g), ip, now) {
      assert SameIp(cfg, a, r, ip, now);
    }
  }

  lemma {:induction false} SameStep(cfg: Config, a: Limiter, r: Limiter, op: Op)
    requires cfg.Valid() && Same(cfg, a, r, op.at)
    ensures Step(cfg, a, op).1 == Step(cfg, r, op).1
    ensures Same(cfg, Step(cfg, a, op).0, Step(cfg, r, op).0, op.at)
  {
    var now := op.at;
    match op
    case Remaining(ip, _) =>
      SameTouch(cfg, a, r, ip, now);
      AlikeConsume(Touch(cfg, a, ip, now).buckets[ip], Touch(cfg, r, ip, now).buckets[ip], now);
    case Check(ip, _) =>
      var p := Poll(now, 1.0);
      var c := Cleanup(cfg, a, now);
      SameCleanup(cfg, a, r, now);
      var g := Consume(c.global, p);
      SameGlobal(cfg, c, r, now, g);
      if Grants(c.global, p) {
        SameTouch(cfg, c.(global := g), r.(global := g), ip, now);
        SameConsume(cfg, Touch(cfg, c.(global := g), ip, now), Touch(cfg, r.(global := g), ip, now), ip, now);
      }
  }

  lemma {:induction false} SameAnswers(cfg: Config, a: Limiter, r: Limiter, ops: seq<Op>, now: real)
    requires cfg.Valid() && Same(cfg, a, r, now) && Ordered(now, ops)
    ensures Answers(cfg, a, ops) == Answers(cfg, r, ops)
    decreases |ops|
  {
    if ops != [] {
      SameLater(cfg, a, r, now, ops[0].at);
      SameStep(cfg, a, r, ops[0]);
      SameAnswers(cfg, Step(cfg, a, ops[0]).0, Step(cfg, r, ops[0]).0, ops[1..], ops[0].at);
    }
  }

  /** What a check leaves in memory. When a cleanup is due it forgets exactly the addresses unseen for longer
      than the interval; otherwise nobody; and it remembers the checked address unless the global bucket
      refused. */
  lemma {:induction false} ForgetsExactly(cfg: Config, l: Limiter, ip: Ip, now: real, other: Ip)
    requires l.cleans && l.buckets.Keys == l.lastSeen.Keys
    ensures var r := Step(cfg, l, Check(ip, now)).0;
            && r.buckets.Keys == r.lastSeen.Keys
            && (other != ip || !Grants(l.global, Poll(now, 1.0)) ==>
                  (other in r.buckets <==>
                     other in l.buckets && (now - l.lastCleanup < cfg.interval || now - l.lastSeen[other] <= cfg.interval)))
            && (Grants(l.global, Poll(now, 1.0)) ==> ip in r.buckets && r.lastSeen[ip] == now)
            && r.lastCleanup == if now - l.lastCleanup < cfg.interval then l.lastCleanup else now
  {
  }

  /** The remaining tokens read after a response are exactly what the address could still take at that
      moment, and reading them takes none. */
  lemma {:induction false} RemainingExactly(cfg: Config, l: Limiter, ip: Ip, now: real, amount: real)
    ensures var (r, a) := Step(cfg, l, Remaining(ip, now));
            && a.Left? && ip in r.buckets && r.global == l.global
            && (Grants(r.buckets[ip], Poll(now, amount)) <==> amount <= a.tokens)
            && (ip in l.buckets ==> r.buckets == l.buckets)
            && (ip !in l.buckets ==> a.tokens == cfg.IpCapacity())
  {
    assert (now - now) * cfg.ipRate == 0.0;
  }

  /** Cleanup is invisible: with a non-decreasing clock, a positive per-address rate and
      `cleanup_interval >= burst_multiplier`, every sequence of checks is answered exactly, including
      the waits and the remaining tokens, as by a limiter that never deletes a bucket. */
  lemma {:induction false} CleanupIsInvisible(cfg: Config, at: real, ops: seq<Op>)
    requires cfg.Valid() && Ordered(at, ops)
    ensures Answers(cfg, Start(cfg, true, at), ops) == Answers(cfg, Start(cfg, false, at), ops)
  {
    SameAnswers(cfg, Start(cfg, true, at), Start(cfg, false, at), ops, at);
  }

  // ------------------------------------------------------------------
  // The object
  // ------------------------------------------------------------------

  class IpLimiter {
    const cfg: Config
    var global: Bucket
    var buckets: map<Ip, Bucket>
    var lastSeen: map<Ip, real>
    var lastCleanup: real

    function View(): Limiter
      reads this
    {
      Limiter(true, global, buckets, lastSeen, lastCleanup)
    }

    constructor (cfg: Config, now: real)
      ensures this.cfg == cfg && View() == Start(cfg, true, now)
    {
      this.cfg := cfg;
      global := New(cfg.globalRate, cfg.globalRate * cfg.burst, now);
      buckets, lastSeen := map[], map[];
      lastCleanup := now;
    }

    /** Delete every stale address, one by one, at most once per interval. */
    method MaybeCleanup(now: real)
      requires buckets.Keys == lastSeen.Keys
      modifies this
      ensures View() == Cleanup(cfg, old(View()), now) && buckets.Keys == lastSeen.Keys
    {
      if now - lastCleanup < cfg.interval {
        return;
      }
      lastCleanup := now;
      var stale := set ip | ip in lastSeen && now - lastSeen[ip] > cfg.interval;
      buckets, lastSeen := DeleteAll(buckets, lastSeen, stale);
      assert buckets == Cleanup(cfg, old(View()), now).buckets;
      assert lastSeen == Cleanup(cfg, old(View()), now).lastSeen;
    }

    method CheckIp(ip: Ip, now: real) returns (allowed: bool, retryAfter: Wait)
      requires buckets.Keys == lastSeen.Keys
      modifies this
      ensures View() == Step(cfg, old(View()), Check(ip, now)).0 && buckets.Keys == lastSeen.Keys
      ensures Step(cfg, old(View()), Check(ip, now)).1 == if allowed then Allowed else Limited(retryAfter)
    {
      MaybeCleanup(now);
      var poll := Poll(now, 1.0);
      var ok := Grants(global, poll);
      global := Consume(global, poll);
      if !ok {
        return false, TimeUntilAvailable(global);
      }
      lastSeen := lastSeen[ip := now];
      if ip !in buckets {
        buckets := buckets[ip := New(cfg.ipRate, cfg.IpCapacity(), now)];
      }
      var ok' := Grants(buckets[ip], poll);
      buckets := buckets[ip := Consume(buckets[ip], poll)];
      if !ok' {
        return false, TimeUntilAvailable(buckets[ip]);
      }
      return true, Seconds(0.0);
    }
  }

  method DeleteAll(buckets: map<Ip, Bucket>, lastSeen: map<Ip, real>, stale: set<Ip>)
    returns (b: map<Ip, Bucket>, seen: map<Ip, real>)
    requires buckets.Keys == lastSeen.Keys
    ensures b == buckets - stale && seen == lastSeen - stale
  {
    b, seen := buckets, lastSeen;
    var rest := stale;
    while rest != {}
      invariant rest <= stale
      invariant b == buckets - (stale - rest) && seen == lastSeen - (stale - rest)
      decreases rest
    {
      var ip :| ip in rest;
      b, seen := b - {ip}, seen - {ip};
      rest := rest - {ip};
    }
  }
}
