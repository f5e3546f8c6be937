/** Exactly when the cleanup of stale address buckets can be observed. */
module CleanupExact {
  import opened TokenBucket
  import opened RateLimiter

  /** An address can be served at all, and the global bucket does not get in its way. */
  predicate Roomy(cfg: Config) {
    && cfg.ipRate > 0.0 && cfg.globalRate >= 0.0 && cfg.interval >= 0.0
    && cfg.IpCapacity() >= 1.0
    && cfg.globalRate * cfg.burst >= cfg.IpCapacity() + 2.0
  }

  /** Every sequence of checks is answered as by the limiter that never deletes a bucket. */
  ghost predicate Invisible(cfg: Config) {
    forall at, ops :: Ordered(at, ops) ==> Answers(cfg, Start(cfg, true, at), ops) == Answers(cfg, Start(cfg, false, at), ops)
  }

  const IP: Ip := "a"

  lemma {:induction false} AnswersSplit(cfg: Config, l: Limiter, a: seq<Op>, b: seq<Op>)
    ensures Answers(cfg, l, a + b) == Answers(cfg, l, a) + Answers(cfg, RunOps(cfg, l, a), b)
    ensures |Answers(cfg, l, a)| == |a|
    decreases |a|
  {
    if a == [] {
      assert a + b == b;
    } else {
      assert (a + b)[1..] == a[1..] + b && (a + b)[0] == a[0];
      AnswersSplit(cfg, Step(cfg, l, a[0]).0, a[1..], b);
    }
  }

  lemma {:induction false} OrderedSnoc(from: real, ops: seq<Op>, last: real, op: Op)
    requires Ordered(from, ops) && op.at >= last >= from && forall i :: 0 <= i < |ops| ==> ops[i].at <= last
    ensures Ordered(from, ops + [op])
    decreases |ops|
  {
    if ops == [] {
      assert [] + [op] == [op] && [op][1..] == [];
    } else {
      assert (ops + [op])[1..] == ops[1..] + [op] && (ops + [op])[0] == ops[0];
      OrderedSnoc(ops[0].at, ops[1..], last, op);
    }
  }

  // ------------------------------------------------------------------
  // Draining one address
  // ------------------------------------------------------------------

  /** At most `spent` global tokens are gone. */
  predicate GlobalLeft(cfg: Config, g: Bucket, t: real, spent: real) {
    && g.rate == cfg.globalRate && g.capacity == cfg.globalRate * cfg.burst
    && g.last <= t && g.capacity - spent <= g.tokens <= g.capacity
  }

  /** The address was last seen at `t` with this many tokens left, and no cleanup has happened since
      the start. */
  predicate Holds(cfg: Config, l: Limiter, cleans: bool, t: real, tokens: real, spent: real) {
    && l.cleans == cleans && l.lastCleanup == 0.0
    && IP in l.buckets && l.buckets[IP] == Bucket(cfg.ipRate, cfg.IpCapacity(), tokens, t)
    && IP in l.lastSeen && l.lastSeen[IP] == t
    && GlobalLeft(cfg, l.global, t, spent)
  }

  lemma {:induction false} GlobalGrants(cfg: Config, g: Bucket, t: real, spent: real, u: real)
    requires Roomy(cfg) && GlobalLeft(cfg, g, t, spent) && t <= u && 0.0 <= spent <= cfg.IpCapacity() + 1.0
    ensures Grants(g, Poll(u, 1.0)) && GlobalLeft(cfg, Consume(g, Poll(u, 1.0)), u, spent + 1.0)
  {
    Scale(g.last, u, g.rate);
  }

  lemma {:induction false} FirstCheck(cfg: Config, cleans: bool)
    requires Roomy(cfg)
    ensures Holds(cfg, Step(cfg, Start(cfg, cleans, 0.0), Check(IP, 0.0)).0, cleans, 0.0, cfg.IpCapacity() - 1.0, 1.0)
  {
    var l := Start(cfg, cleans, 0.0);
    GlobalGrants(cfg, l.global, 0.0, 0.0, 0.0);
    assert Cleanup(cfg, l, 0.0).global == l.global && Cleanup(cfg, l, 0.0).buckets == map[];
    RefillNow(New(cfg.ipRate, cfg.IpCapacity(), 0.0));
  }

  lemma {:induction false} RefillNow(b: Bucket)
    requires b.tokens <= b.capacity
    ensures Refill(b, b.last) == b
  {
    var elapsed := b.last - b.last;
    NoTime(elapsed, b.rate);
    assert Refill(b, b.last).tokens == MinR(b.capacity, b.tokens + elapsed * b.rate);
  }

  lemma {:induction false} NoTime(elapsed: real, rate: real)
    requires elapsed == 0.0
    ensures elapsed * rate == 0.0
  {
  }

  /** A check before anything is stale takes one token of what has refilled. */
  lemma {:induction false} NextCheck(cfg: Config, l: Limiter, cleans: bool, t: real, tokens: real, spent: real, u: real, level: real)
    requires Roomy(cfg) && Holds(cfg, l, cleans, t, tokens, spent) && 0.0 <= spent <= cfg.IpCapacity() + 1.0
    requires 0.0 <= t <= u && (u == 0.0 || u < cfg.interval)
    requires level == Refill(l.buckets[IP], u).tokens >= 1.0
    ensures Holds(cfg, Step(cfg, l, Check(IP, u)).0, cleans, u, level - 1.0, spent + 1.0)
  {
    GlobalGrants(cfg, l.global, t, spent, u);
    var c := Cleanup(cfg, l, u);
    assert c.global == l.global && IP in c.buckets && c.buckets[IP] == l.buckets[IP] && c.lastCleanup == 0.0;
  }

  function Checks(n: nat): (ops: seq<Op>)
    ensures forall i :: 0 <= i < |ops| ==> ops[i].at == 0.0
  {
    if n == 0 then [] else Checks(n - 1) + [Check(IP, 0.0)]
  }

  lemma {:induction false} ChecksOrdered(n: nat)
    ensures Ordered(0.0, Checks(n))
  {
    if n > 0 {
      ChecksOrdered(n - 1);
      OrderedSnoc(0.0, Checks(n - 1), 0.0, Check(IP, 0.0));
    }
  }

  lemma {:induction false} Drain(cfg: Config, cleans: bool, n: nat)
    requires Roomy(cfg) && 1 <= n && n as real <= cfg.IpCapacity()
    ensures Holds(cfg, RunOps(cfg, Start(cfg, cleans, 0.0), Checks(n)), cleans, 0.0, cfg.IpCapacity() - n as real, n as real)
  {
    var start := Start(cfg, cleans, 0.0);
    RunSnoc(cfg, start, Checks(n - 1), Check(IP, 0.0));
    if n == 1 {
      FirstCheck(cfg, cleans);
    } else {
      Drain(cfg, cleans, n - 1);
      var l := RunOps(cfg, start, Checks(n - 1));
      RefillNow(l.buckets[IP]);
      NextCheck(cfg, l, cleans, 0.0, l.buckets[IP].tokens, (n - 1) as real, 0.0, l.buckets[IP].tokens);
    }
  }

  /** Once the address has been forgotten before it refilled, the next answers differ. */
  lemma {:induction false} Diverge(cfg: Config, a: Limiter, r: Limiter, t: real, tokens: real, spent: real, d: real)
    requires Roomy(cfg) && Holds(cfg, a, true, t, tokens, spent) && Holds(cfg, r, false, t, tokens, spent)
    requires 0.0 <= t && 0.0 <= spent <= cfg.IpCapacity() + 1.0 && 0.0 <= tokens
    requires d > cfg.interval && tokens + d * cfg.ipRate < cfg.IpCapacity()
    ensures var ops := [Check(IP, t + d), Remaining(IP, t + d)]; Answers(cfg, a, ops) != Answers(cfg, r, ops)
  {
    var now := t + d;
    Forgotten(cfg, a, t, tokens, spent, now);
    Remembered(cfg, r, t, tokens, spent, now, tokens + d * cfg.ipRate);
    TwoAnswers(cfg, a, Check(IP, now), Remaining(IP, now));
    TwoAnswers(cfg, r, Check(IP, now), Remaining(IP, now));
  }

  lemma {:induction false} TwoAnswers(cfg: Config, l: Limiter, x: Op, y: Op)
    ensures Answers(cfg, l, [x, y]) == [Step(cfg, l, x).1, Step(cfg, Step(cfg, l, x).0, y).1]
  {
    var next := Step(cfg, l, x).0;
    assert [x, y][1..] == [y] && [y][1..] == [];
    assert Answers(cfg, next, [y]) == [Step(cfg, next, y).1];
  }

  lemma {:induction false} Forgotten(cfg: Config, a: Limiter, t: real, tokens: real, spent: real, now: real)
    requires Roomy(cfg) && Holds(cfg, a, true, t, tokens, spent) && 0.0 <= spent <= cfg.IpCapacity() + 1.0
    requires 0.0 <= t && now - t > cfg.interval
    ensures var s := Step(cfg, a, Check(IP, now));
            s.1 == Allowed && Step(cfg, s.0, Remaining(IP, now)).1 == Left(cfg.IpCapacity() - 1.0)
  {
    GlobalGrants(cfg, a.global, t, spent, now);
    var c := Cleanup(cfg, a, now);
    assert c.global == a.global && IP !in c.buckets;
    RefillNow(New(cfg.ipRate, cfg.IpCapacity(), now));
    var s := Step(cfg, a, Check(IP, now)).0;
    assert s.buckets[IP] == Bucket(cfg.ipRate, cfg.IpCapacity(), cfg.IpCapacity() - 1.0, now);
    RefillNow(s.buckets[IP]);
  }

  lemma {:induction false} Remembered(cfg: Config, r: Limiter, t: real, tokens: real, spent: real, now: real, level: real)
    requires Roomy(cfg) && Holds(cfg, r, false, t, tokens, spent) && 0.0 <= spent <= cfg.IpCapacity() + 1.0
    requires t <= now && level == tokens + (now - t) * cfg.ipRate < cfg.IpCapacity()
    ensures var s := Step(cfg, r, Check(IP, now));
            s.1 == Allowed ==> Step(cfg, s.0, Remaining(IP, now)).1 == Left(level - 1.0)
  {
    GlobalGrants(cfg, r.global, t, spent, now);
    assert Cleanup(cfg, r, now) == r;
    if level >= 1.0 {
      var s := Step(cfg, r, Check(IP, now)).0;
      assert s.buckets[IP] == Bucket(cfg.ipRate, cfg.IpCapacity(), level - 1.0, now);
      RefillNow(s.buckets[IP]);
    }
  }

  // ------------------------------------------------------------------
  // Emptying the address far enough
  // ------------------------------------------------------------------

  /** A schedule that leaves both limiters with fewer tokens than refill during one interval. */
  ghost predicate Emptied(cfg: Config, ops: seq<Op>, t: real, tokens: real, spent: real) {
    && Ordered(0.0, ops) && (forall i :: 0 <= i < |ops| ==> ops[i].at <= t)
    && 0.0 <= t && 0.0 <= tokens && 0.0 <= spent <= cfg.IpCapacity() + 1.0
    && tokens + cfg.interval * cfg.ipRate < cfg.IpCapacity()
    && Holds(cfg, RunOps(cfg, Start(cfg, true, 0.0), ops), true, t, tokens, spent)
    && Holds(cfg, RunOps(cfg, Start(cfg, false, 0.0), ops), false, t, tokens, spent)
  }

  /** Whole tokens at once, and when the fraction left over is too much, one more check at the moment
      the bucket holds exactly one token. */
  lemma {:induction false} Empty(cfg: Config) returns (ops: seq<Op>, t: real, tokens: real, spent: real)
    requires Roomy(cfg) && cfg.interval < cfg.burst
    ensures Emptied(cfg, ops, t, tokens, spent)
  {
    var n := cfg.IpCapacity().Floor;
    var left := cfg.IpCapacity() - n as real;
    Shorter(cfg.interval, cfg.burst, cfg.ipRate);
    if left + cfg.interval * cfg.ipRate < cfg.IpCapacity() {
      EmptyAtOnce(cfg, n, left);
      ops, t, tokens, spent := Checks(n), 0.0, left, n as real;
    } else {
      var wait := (1.0 - left) / cfg.ipRate;
      WaitForOne(left, cfg.ipRate, cfg.interval, wait);
      EmptyLater(cfg, n, left, wait);
      ops, t, tokens, spent := Checks(n) + [Check(IP, wait)], wait, 0.0, n as real + 1.0;
    }
  }

  lemma {:induction false} EmptyAtOnce(cfg: Config, n: nat, left: real)
    requires Roomy(cfg) && 1 <= n && n as real <= cfg.IpCapacity() && left == cfg.IpCapacity() - n as real
    requires left + cfg.interval * cfg.ipRate < cfg.IpCapacity()
    ensures Emptied(cfg, Checks(n), 0.0, left, n as real)
  {
    Drain(cfg, true, n);
    Drain(cfg, false, n);
    ChecksOrdered(n);
  }

  lemma {:induction false} EmptyLater(cfg: Config, n: nat, left: real, wait: real)
    requires Roomy(cfg) && 1 <= n && n as real <= cfg.IpCapacity() && left == cfg.IpCapacity() - n as real
    requires 0.0 < wait < cfg.interval && wait * cfg.ipRate == 1.0 - left
    requires cfg.interval * cfg.ipRate < cfg.IpCapacity()
    ensures Emptied(cfg, Checks(n) + [Check(IP, wait)], wait, 0.0, n as real + 1.0)
  {
    ChecksOrdered(n);
    OrderedSnoc(0.0, Checks(n), 0.0, Check(IP, wait));
    LastToken(cfg, true, n, left, wait);
    LastToken(cfg, false, n, left, wait);
  }

  lemma {:induction false} Shorter(a: real, b: real, rate: real)
    requires a < b && rate > 0.0
    ensures a * rate < rate * b
  {
  }

  lemma {:induction false} WaitForOne(left: real, rate: real, interval: real, wait: real)
    requires rate > 0.0 && 0.0 <= left < 1.0 && interval * rate >= 1.0 && wait == (1.0 - left) / rate
    ensures wait * rate == 1.0 - left && 0.0 < wait && (left > 0.0 ==> wait < interval)
  {
    DivMul(1.0 - left, rate);
    MulLess(0.0, wait, rate);
    MulLess(wait, interval, rate);
  }

  lemma {:induction false} LastToken(cfg: Config, cleans: bool, n: nat, left: real, wait: real)
    requires Roomy(cfg) && 1 <= n && n as real <= cfg.IpCapacity() && left == cfg.IpCapacity() - n as real
    requires 0.0 < wait < cfg.interval && wait * cfg.ipRate == 1.0 - left
    ensures Holds(cfg, RunOps(cfg, Start(cfg, cleans, 0.0), Checks(n) + [Check(IP, wait)]), cleans, wait, 0.0, n as real + 1.0)
  {
    Drain(cfg, cleans, n);
    RunSnoc(cfg, Start(cfg, cleans, 0.0), Checks(n), Check(IP, wait));
    OneMore(cfg, RunOps(cfg, Start(cfg, cleans, 0.0), Checks(n)), cleans, n as real, left, wait);
  }

  lemma {:induction false} OneMore(cfg: Config, l: Limiter, cleans: bool, spent: real, left: real, wait: real)
    requires Roomy(cfg) && 0.0 <= spent <= cfg.IpCapacity() && Holds(cfg, l, cleans, 0.0, left, spent)
    requires 0.0 < wait < cfg.interval && wait * cfg.ipRate == 1.0 - left
    ensures Holds(cfg, Step(cfg, l, Check(IP, wait)).0, cleans, wait, 0.0, spent + 1.0)
  {
    assert Refill(l.buckets[IP], wait).tokens == 1.0;
    NextCheck(cfg, l, cleans, 0.0, left, spent, wait, 1.0);
  }

  lemma {:induction false} Between(tokens: real, interval: real, rate: real, capacity: real) returns (d: real)
    requires rate > 0.0 && tokens + interval * rate < capacity
    ensures d > interval && tokens + d * rate < capacity
  {
    var gap := (capacity - tokens - interval * rate) / (2.0 * rate);
    d := interval + gap;
    assert gap * rate == (capacity - tokens - interval * rate) / 2.0;
    assert gap > 0.0;
    assert d * rate == interval * rate + gap * rate;
  }

  /** With a shorter interval this sequence of checks is answered differently. */
  lemma {:induction false} Telling(cfg: Config) returns (ops: seq<Op>)
    requires Roomy(cfg) && cfg.interval < cfg.burst
    ensures Ordered(0.0, ops) && Answers(cfg, Start(cfg, true, 0.0), ops) != Answers(cfg, Start(cfg, false, 0.0), ops)
  {
    var before, t, tokens, spent := Empty(cfg);
    var u := DivergeSoon(cfg, before, t, tokens, spent);
    Extended(cfg, Start(cfg, true, 0.0), Start(cfg, false, 0.0), before, [Check(IP, u), Remaining(IP, u)]);
    OrderedTwo(before, t, Check(IP, u), Remaining(IP, u));
    ops := before + [Check(IP, u), Remaining(IP, u)];
  }

  lemma {:induction false} DivergeSoon(cfg: Config, ops: seq<Op>, t: real, tokens: real, spent: real) returns (u: real)
    requires Roomy(cfg) && Emptied(cfg, ops, t, tokens, spent)
    ensures t <= u
    ensures var more := [Check(IP, u), Remaining(IP, u)];
            Answers(cfg, RunOps(cfg, Start(cfg, true, 0.0), ops), more)
            != Answers(cfg, RunOps(cfg, Start(cfg, false, 0.0), ops), more)
  {
    var d := Between(tokens, cfg.interval, cfg.ipRate, cfg.IpCapacity());
    Diverge(cfg, RunOps(cfg, Start(cfg, true, 0.0), ops), RunOps(cfg, Start(cfg, false, 0.0), ops), t, tokens, spent, d);
    u := t + d;
  }

  /** With a shorter interval cleanup shows. */
  lemma {:induction false} ShortIntervalShows(cfg: Config)
    requires Roomy(cfg) && cfg.interval < cfg.burst
    ensures !Invisible(cfg)
  {
    var ops := Telling(cfg);
  }

  lemma {:induction false} OrderedTwo(ops: seq<Op>, t: real, x: Op, y: Op)
    requires Ordered(0.0, ops) && (forall i :: 0 <= i < |ops| ==> ops[i].at <= t) && 0.0 <= t <= x.at == y.at
    ensures Ordered(0.0, ops + [x, y])
  {
    OrderedSnoc(0.0, ops, t, x);
    OrderedSnoc(0.0, ops + [x], x.at, y);
    assert ops + [x] + [y] == ops + [x, y];
  }

  lemma {:induction false} Extended(cfg: Config, a: Limiter, r: Limiter, ops: seq<Op>, more: seq<Op>)
    requires Answers(cfg, RunOps(cfg, a, ops), more) != Answers(cfg, RunOps(cfg, r, ops), more)
    ensures Answers(cfg, a, ops + more) != Answers(cfg, r, ops + more)
  {
    AnswersSplit(cfg, a, ops, more);
    AnswersSplit(cfg, r, ops, more);
    Differs(Answers(cfg, a, ops), Answers(cfg, RunOps(cfg, a, ops), more),
            Answers(cfg, r, ops), Answers(cfg, RunOps(cfg, r, ops), more));
  }

  lemma {:induction false} Differs(a: seq<Answer>, b: seq<Answer>, c: seq<Answer>, d: seq<Answer>)
    requires |a| == |c| && b != d
    ensures a + b != c + d
  {
    assert b == (a + b)[|a|..] && d == (c + d)[|c|..];
  }

  /** Cleanup cannot be observed if and only if `cleanup_interval >= burst_multiplier`. */
  lemma {:induction false} InvisibleExactly(cfg: Config)
    requires Roomy(cfg)
    ensures Invisible(cfg) <==> cfg.interval >= cfg.burst
  {
    if cfg.interval < cfg.burst {
      ShortIntervalShows(cfg);
    } else {
      PositiveBurst(cfg.ipRate, cfg.burst);
      forall at, ops | Ordered(at, ops)
        ensures Answers(cfg, Start(cfg, true, at), ops) == Answers(cfg, Start(cfg, false, at), ops)
      {
        CleanupIsInvisible(cfg, at, ops);
      }
    }
  }

  lemma {:induction false} PositiveBurst(rate: real, burst: real)
    requires rate > 0.0 && rate * burst >= 1.0
    ensures burst > 0.0
  {
    MulLess(0.0, burst, rate);
  }
}
