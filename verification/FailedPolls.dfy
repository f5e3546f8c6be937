/** What a client's own failed polls cost it. A poll refused by the address bucket has already taken a
    global token, so at the level of `check` failed polls can postpone the success. */
module FailedPolls {
  import opened TokenBucket
  import opened RateLimiter
  import opened CleanupExact
  import opened RetryHeader

  /** The client's polls, each refused. */
  predicate AllFail(cfg: Config, l: Limiter, ip: Ip, ops: seq<Op>)
    decreases |ops|
  {
    ops == [] ||
    (ops[0] == Check(ip, ops[0].at) && !Allows(cfg, l, ip, ops[0].at) && AllFail(cfg, Step(cfg, l, ops[0]).0, ip, ops[1..]))
  }

  /** The same polls, as the global bucket sees them. */
  function PollsOf(ops: seq<Op>): (polls: seq<Poll>)
    ensures |polls| == |ops|
  {
    if ops == [] then [] else [One(ops[0].at)] + PollsOf(ops[1..])
  }

  // ------------------------------------------------------------------
  // The address bucket is not touched by failed polls
  // ------------------------------------------------------------------

  /** The tokens the address will have at time `u`. */
  function Level(cfg: Config, l: Limiter, ip: Ip, u: real): real {
    Refill(if ip in l.buckets then l.buckets[ip] else New(cfg.ipRate, cfg.IpCapacity(), u), u).tokens
  }

  lemma {:induction false} NewLevel(cfg: Config, at: real, u: real)
    requires cfg.Valid() && at <= u
    ensures Refill(New(cfg.ipRate, cfg.IpCapacity(), at), u).tokens == cfg.IpCapacity()
  {
    Scale(at, u, cfg.ipRate);
  }

  lemma {:induction false} CleanupLevel(cfg: Config, l: Limiter, ip: Ip, p: real, u: real)
    requires cfg.Valid() && LimiterOk(cfg, l, p) && p <= u
    ensures Level(cfg, Cleanup(cfg, l, p), ip, u) == Level(cfg, l, ip, u)
  {
    assert SeenOk(cfg, l, ip, p);
    if ip in l.buckets && ip !in Cleanup(cfg, l, p).buckets {
      StaleIsFull(cfg, l.buckets[ip], l.lastSeen[ip], p, cfg.IpCapacity());
      FullLater(l.buckets[ip], p, u);
      NewLevel(cfg, u, u);
    }
  }

  lemma {:induction false} RefillTwice(b: Bucket, p: real, u: real)
    requires b.Valid() && b.last <= p <= u
    ensures Refill(Refill(b, p), u) == Refill(b, u)
  {
    SplitTime(b.last, p, u, b.rate);
    Scale(p, u, b.rate);
    Scale(b.last, p, b.rate);
  }

  lemma {:induction false} AllowsByLevel(cfg: Config, l: Limiter, ip: Ip, u: real)
    requires cfg.Valid() && LimiterOk(cfg, l, u)
    ensures Allows(cfg, l, ip, u) <==> Grants(l.global, One(u)) && Level(cfg, l, ip, u) >= 1.0
  {
    AllowsExactly(cfg, l, ip, u);
    CleanupLevel(cfg, l, ip, u, u);
  }

  lemma {:induction false} FailedKeepsLevel(cfg: Config, l: Limiter, ip: Ip, p: real, u: real)
    requires cfg.Valid() && LimiterOk(cfg, l, p) && p <= u && !Allows(cfg, l, ip, p)
    ensures Level(cfg, Step(cfg, l, Check(ip, p)).0, ip, u) == Level(cfg, l, ip, u)
  {
    var c := Cleanup(cfg, l, p);
    CleanupLevel(cfg, l, ip, p, u);
    if Grants(l.global, One(p)) {
      FoundOk(cfg, l, ip, p);
      AllowsExactly(cfg, l, ip, p);
      RefillTwice(Found(cfg, l, ip, p), p, u);
      NewLevel(cfg, p, u);
      NewLevel(cfg, u, u);
    }
  }

  lemma {:induction false} FailedRun(cfg: Config, l: Limiter, ip: Ip, now: real, ops: seq<Op>, u: real)
    requires cfg.Valid() && LimiterOk(cfg, l, now) && Ordered(now, ops) && End(now, ops) <= u && AllFail(cfg, l, ip, ops)
    ensures LimiterOk(cfg, RunOps(cfg, l, ops), u)
    ensures RunOps(cfg, l, ops).global == After(l.global, PollsOf(ops))
    ensures Level(cfg, RunOps(cfg, l, ops), ip, u) == Level(cfg, l, ip, u)
    decreases |ops|
  {
    EndNotBefore(now, ops);
    if ops == [] {
      OkLater(cfg, l, now, u);
    } else {
      var p, next := ops[0].at, Step(cfg, l, ops[0]).0;
      EndNotBefore(p, ops[1..]);
      OkLater(cfg, l, now, p);
      OkStep(cfg, l, ops[0]);
      FailedKeepsLevel(cfg, l, ip, p, u);
      assert PollsOf(ops)[0] == One(p) && PollsOf(ops)[1..] == PollsOf(ops[1..]);
      assert next.global == Consume(l.global, One(p));
      FailedRun(cfg, next, ip, p, ops[1..], u);
    }
  }

  /** After a client's failed polls a check at `u` is allowed if and only if the address bucket grants,
      as it would have without them, and the global bucket grants after serving the polls. */
  lemma {:induction false} AfterFailedPolls(cfg: Config, l: Limiter, ip: Ip, now: real, ops: seq<Op>, u: real)
    requires cfg.Valid() && Reached(cfg, l, now) && Ordered(now, ops) && End(now, ops) <= u && AllFail(cfg, l, ip, ops)
    ensures Allows(cfg, l, ip, u) <==> Grants(l.global, One(u)) && Level(cfg, l, ip, u) >= 1.0
    ensures Allows(cfg, RunOps(cfg, l, ops), ip, u) <==>
            Grants(After(l.global, PollsOf(ops)), One(u)) && Level(cfg, l, ip, u) >= 1.0
  {
    OkReached(cfg, l, now);
    EndNotBefore(now, ops);
    OkLater(cfg, l, now, u);
    AllowsByLevel(cfg, l, ip, u);
    FailedRun(cfg, l, ip, now, ops, u);
    AllowsByLevel(cfg, RunOps(cfg, l, ops), ip, u);
  }

  // ------------------------------------------------------------------
  // In tokens
  // ------------------------------------------------------------------

  /** A check that would be allowed without the failed polls is refused after them. */
  predicate Postponed(cfg: Config, l: Limiter, ip: Ip, ops: seq<Op>, u: real) {
    Allows(cfg, l, ip, u) && !Allows(cfg, RunOps(cfg, l, ops), ip, u)
  }

  lemma {:induction false} PollsTimely(now: real, ops: seq<Op>, u: real)
    requires Ordered(now, ops) && End(now, ops) <= u
    ensures Timely(now, PollsOf(ops)) && Until(PollsOf(ops), u)
    decreases |ops|
  {
    if ops != [] {
      EndNotBefore(ops[0].at, ops[1..]);
      PollsTimely(ops[0].at, ops[1..], u);
      assert PollsOf(ops)[1..] == PollsOf(ops[1..]);
    }
  }

  lemma {:induction false} TimelyLater(from: real, from': real, polls: seq<Poll>)
    requires Timely(from, polls) && from' <= from
    ensures Timely(from', polls)
  {
  }

  /** One poll costs the later level at most what it was granted, and exactly that below the capacity. */
  lemma {:induction false} PollCosts(b: Bucket, p: Poll, u: real)
    requires b.Valid() && b.last <= p.at <= u && p.amount >= 0.0
    ensures Refill(Consume(b, p), u).tokens >= Refill(b, u).tokens - Spent(b, p)
    ensures LevelAt(b, u) <= b.capacity ==> LevelAt(Consume(b, p), u) == LevelAt(b, u) - Spent(b, p)
  {
    RefillTwice(b, p.at, u);
    SplitTime(b.last, p.at, u, b.rate);
    Scale(p.at, u, b.rate);
  }

  lemma {:induction false} PollsCost(b: Bucket, polls: seq<Poll>, u: real)
    requires b.Valid() && b.last <= u && Timely(b.last, polls) && Until(polls, u)
    ensures Refill(After(b, polls), u).tokens >= Refill(b, u).tokens - Granted(b, polls)
    ensures LevelAt(b, u) <= b.capacity ==> LevelAt(After(b, polls), u) == LevelAt(b, u) - Granted(b, polls)
    decreases |polls|
  {
    if polls != [] {
      UntilTail(polls, u);
      ConsumeValid(b, polls[0]);
      PollCosts(b, polls[0], u);
      GrantedCons(b, polls);
      GrantedNotNegative(b, polls[0]);
      PollsCost(Consume(b, polls[0]), polls[1..], u);
    }
  }

  lemma {:induction false} GrantedNotNegative(b: Bucket, p: Poll)
    requires p.amount >= 0.0
    ensures Spent(b, p) >= 0.0
  {
  }

  lemma {:induction false} AllGranted(b: Bucket, polls: seq<Poll>)
    requires Timely(b.last, polls)
    ensures Granted(b, polls) >= 0.0
    ensures After(b, polls).capacity == b.capacity && After(b, polls).rate == b.rate
    decreases |polls|
  {
    if polls != [] {
      AllGranted(Consume(b, polls[0]), polls[1..]);
    }
  }

  /** Failed polls postpone an otherwise allowed check if and only if the global tokens they took, all
      those of polls refused by the address bucket, leave the global bucket below one token at `u`.
      They do not if `taken + 1` tokens would be there without them, and below the global capacity
      that is exact. */
  lemma {:induction false} PostponedExactly(cfg: Config, l: Limiter, ip: Ip, now: real, ops: seq<Op>, u: real)
    requires cfg.Valid() && Reached(cfg, l, now) && Ordered(now, ops) && End(now, ops) <= u && AllFail(cfg, l, ip, ops)
    requires Allows(cfg, l, ip, u)
    ensures var taken := Granted(l.global, PollsOf(ops));
            && (Postponed(cfg, l, ip, ops, u) <==> !Grants(After(l.global, PollsOf(ops)), One(u)))
            && (Refill(l.global, u).tokens >= taken + 1.0 ==> !Postponed(cfg, l, ip, ops, u))
            && (LevelAt(l.global, u) <= cfg.GlobalCapacity() ==>
                  (Postponed(cfg, l, ip, ops, u) <==> LevelAt(l.global, u) < taken + 1.0))
  {
    AfterFailedPolls(cfg, l, ip, now, ops, u);
    OkReached(cfg, l, now);
    EndNotBefore(now, ops);
    PollsTimely(now, ops, u);
    TimelyLater(now, l.global.last, PollsOf(ops));
    PollsCost(l.global, PollsOf(ops), u);
    AllGranted(l.global, PollsOf(ops));
  }

  // ------------------------------------------------------------------
  // A run
  // ------------------------------------------------------------------

  /** The address is at `level` after its last poll at `at`, and the global bucket at `left`. */
  predicate Alone(l: Limiter, at: real, level: real, left: real) {
    && l.cleans && l.lastCleanup == 0.0
    && "a" in l.buckets && l.buckets["a"] == Bucket(0.25, 1.0, level, at)
    && l.global == Bucket(1.0, 4.0, left, at)
  }

  /** One more poll before the address is ready takes a global token. */
  lemma {:induction false} PollTakesToken(l: Limiter, at: real, level: real, left: real, p: real, level': real, left': real)
    requires Alone(l, at, level, left) && at <= p < 300.0
    requires level' == level + (p - at) * 0.25 < 1.0 && left' == MinR(4.0, left + (p - at)) - 1.0 >= 0.0
    ensures !Allows(SLOW, l, "a", p) && Alone(Step(SLOW, l, Check("a", p)).0, p, level', left')
  {
    assert Cleanup(SLOW, l, p) == l;
    assert Refill(l.global, p).tokens == left' + 1.0;
    assert Refill(l.buckets["a"], p).tokens == level';
    AllowsExactly(SLOW, l, "a", p);
  }

  lemma {:induction false} FailCons(l: Limiter, p: real, rest: seq<Op>)
    requires !Allows(SLOW, l, "a", p) && AllFail(SLOW, Step(SLOW, l, Check("a", p)).0, "a", rest)
    ensures AllFail(SLOW, l, "a", [Check("a", p)] + rest)
    ensures RunOps(SLOW, l, [Check("a", p)] + rest) == RunOps(SLOW, Step(SLOW, l, Check("a", p)).0, rest)
  {
    assert ([Check("a", p)] + rest)[1..] == rest;
  }

  function Polls(n: nat): seq<Op> { if n == 0 then [] else [Check("a", 3.95)] + Polls(n - 1) }

  lemma {:induction false} PollsOrdered(n: nat)
    ensures Ordered(3.95, Polls(n)) && End(3.95, Polls(n)) == 3.95
  {
    if n > 0 {
      PollsOrdered(n - 1);
      assert Polls(n)[1..] == Polls(n - 1);
    }
  }

  lemma {:induction false} MorePolls(l: Limiter, n: nat)
    requires Alone(l, 3.95, 0.9875, n as real) && n <= 4
    ensures AllFail(SLOW, l, "a", Polls(n)) && Alone(RunOps(SLOW, l, Polls(n)), 3.95, 0.9875, 0.0)
    decreases n
  {
    if n > 0 {
      PollTakesToken(l, 3.95, 0.9875, n as real, 3.95, 0.9875, n as real - 1.0);
      MorePolls(Step(SLOW, l, Check("a", 3.95)).0, n - 1);
      FailCons(l, 3.95, Polls(n - 1));
    }
  }

  lemma {:induction false} OwnReady(l: Limiter)
    requires Alone(l, 3.95, 0.9875, 0.0) || Alone(l, 0.0, 0.0, 3.0)
    ensures Allows(SLOW, l, "a", 4.0) <==> l.global.tokens == 3.0
    ensures Refill(Found(SLOW, l, "a", 4.0), 4.0).tokens == 1.0
  {
    assert Cleanup(SLOW, l, 4.0) == l;
    assert Refill(l.buckets["a"], 4.0).tokens == 1.0;
    assert Refill(l.global, 4.0).tokens == if l.global.tokens == 3.0 then 4.0 else 0.05;
    AllowsExactly(SLOW, l, "a", 4.0);
  }

  lemma {:induction false} AloneAtStart() returns (l: Limiter)
    ensures Reached(SLOW, l, 0.0) && Alone(l, 0.0, 0.0, 3.0)
  {
    ReachedStart(SLOW, 0.0);
    l := TakeOne(Start(SLOW, true, 0.0), "a", 3.0);
  }

  /** A lone client, allowed at 0, polls four times just before its own bucket is ready at 4. Without
      the polls it is allowed then; after them its own bucket grants and the global one refuses. */
  lemma {:induction false} PollsPostpone() returns (l: Limiter, ops: seq<Op>)
    ensures Reached(SLOW, l, 0.0) && Ordered(0.0, ops) && End(0.0, ops) <= 4.0 && AllFail(SLOW, l, "a", ops)
    ensures Postponed(SLOW, l, "a", ops, 4.0)
    ensures Grants(Found(SLOW, RunOps(SLOW, l, ops), "a", 4.0), One(4.0))
  {
    l := AloneAtStart();
    PollTakesToken(l, 0.0, 0.0, 3.0, 3.95, 0.9875, 3.0);
    var next := Step(SLOW, l, Check("a", 3.95)).0;
    MorePolls(next, 3);
    FailCons(l, 3.95, Polls(3));
    ops := Polls(4);
    assert ops == [Check("a", 3.95)] + Polls(3);
    PollsOrdered(4);
    OwnReady(l);
    OwnReady(RunOps(SLOW, l, ops));
  }
}
