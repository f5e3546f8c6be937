/** What the wait returned by `check`, and the `Retry-After` header made from it, are worth to a lone
    client: two buckets decide, and the wait is that of the first one that refuses. */
module RetryHeader {
  import opened TokenBucket
  import opened RateLimiter
  import opened CleanupExact

  /** Both buckets refill, and both can hold a token. */
  predicate Serves(cfg: Config) {
    cfg.globalRate > 0.0 && cfg.ipRate > 0.0 && cfg.GlobalCapacity() >= 1.0 && cfg.IpCapacity() >= 1.0
  }

  lemma {:induction false} ServesSane(cfg: Config)
    requires Serves(cfg)
    ensures cfg.Sane() && cfg.burst > 0.0
  {
    MulLess(0.0, cfg.burst, cfg.ipRate);
  }

  function One(at: real): Poll { Poll(at, 1.0) }

  predicate Allows(cfg: Config, l: Limiter, ip: Ip, at: real) { Step(cfg, l, Check(ip, at)).1 == Allowed }

  /** The bucket that `check` finds for the address at time `at`, fresh when there is none. */
  function Found(cfg: Config, l: Limiter, ip: Ip, at: real): Bucket {
    var c := Cleanup(cfg, l, at);
    if ip in c.buckets then c.buckets[ip] else New(cfg.ipRate, cfg.IpCapacity(), at)
  }

  lemma {:induction false} AllowsExactly(cfg: Config, l: Limiter, ip: Ip, at: real)
    ensures Allows(cfg, l, ip, at) <==> Grants(l.global, One(at)) && Grants(Found(cfg, l, ip, at), One(at))
  {
  }

  // ------------------------------------------------------------------
  // After a refusal
  // ------------------------------------------------------------------

  /** The bucket that did not refuse the check made at `t` in `l`, as a retry at `u` finds it. */
  function Other(cfg: Config, l: Limiter, ip: Ip, t: real, u: real): Bucket {
    var r := Step(cfg, l, Check(ip, t)).0;
    if Grants(l.global, One(t)) then r.global else Found(cfg, r, ip, u)
  }

  /** The bucket that refused, right after the refusal. */
  function Refusing(cfg: Config, l: Limiter, ip: Ip, t: real): Bucket {
    if Grants(l.global, One(t)) then Consume(Found(cfg, l, ip, t), One(t)) else Consume(l.global, One(t))
  }

  lemma {:induction false} FoundOk(cfg: Config, l: Limiter, ip: Ip, at: real)
    requires cfg.Sane() && LimiterOk(cfg, l, at)
    ensures BucketOk(cfg, Found(cfg, l, ip, at), at)
  {
    assert SeenOk(cfg, l, ip, at);
    Capacities(cfg);
  }

  lemma {:induction false} RefusingIs(cfg: Config, l: Limiter, ip: Ip, t: real)
    requires Serves(cfg) && LimiterOk(cfg, l, t) && !Allows(cfg, l, ip, t)
    ensures var b := Refusing(cfg, l, ip, t);
            && b.Valid() && b.rate > 0.0 && b.capacity >= 1.0 && b.tokens < 1.0 && b.last == t
            && Step(cfg, l, Check(ip, t)).1 == Limited(TimeUntilAvailable(b))
  {
    ServesSane(cfg);
    AllowsExactly(cfg, l, ip, t);
    FoundOk(cfg, l, ip, t);
    if Grants(l.global, One(t)) {
      ConsumeValid(Found(cfg, l, ip, t), One(t));
    } else {
      ConsumeValid(l.global, One(t));
    }
  }

  /** A retry at `u` of an address refused at `t` finds its bucket deleted. */
  predicate Forgotten(cfg: Config, l: Limiter, ip: Ip, t: real, u: real) {
    Grants(l.global, One(t)) && ip !in Cleanup(cfg, Step(cfg, l, Check(ip, t)).0, u).buckets
  }

  /** After the address was refused its bucket is as the refusal left it, or was forgotten as stale. */
  lemma {:induction false} FoundAfterRefusal(cfg: Config, l: Limiter, ip: Ip, t: real, u: real)
    requires Grants(l.global, One(t)) && !Allows(cfg, l, ip, t) && t <= u
    ensures Found(cfg, Step(cfg, l, Check(ip, t)).0, ip, u) ==
            if Forgotten(cfg, l, ip, t, u) then New(cfg.ipRate, cfg.IpCapacity(), u) else Refusing(cfg, l, ip, t)
    ensures Forgotten(cfg, l, ip, t, u) ==> u - t > cfg.interval
  {
  }

  lemma {:induction false} NewGrants(rate: real, capacity: real, at: real)
    requires capacity >= 1.0
    ensures Grants(New(rate, capacity, at), One(at))
  {
    NoTime(at - at, rate);
  }

  /** The retry at `u` needs the bucket that refused, or a fresh one in its place, and the other one. */
  lemma {:induction false} RetryNeedsBoth(cfg: Config, l: Limiter, ip: Ip, t: real, u: real)
    requires Serves(cfg) && LimiterOk(cfg, l, t) && !Allows(cfg, l, ip, t) && t <= u
    ensures Allows(cfg, Step(cfg, l, Check(ip, t)).0, ip, u) <==>
            && (Grants(Refusing(cfg, l, ip, t), One(u)) || Forgotten(cfg, l, ip, t, u))
            && Grants(Other(cfg, l, ip, t, u), One(u))
    ensures Forgotten(cfg, l, ip, t, u) ==> u - t > cfg.interval
  {
    AllowsExactly(cfg, l, ip, t);
    AllowsExactly(cfg, Step(cfg, l, Check(ip, t)).0, ip, u);
    if Grants(l.global, One(t)) {
      FoundAfterRefusal(cfg, l, ip, t, u);
      NewGrants(cfg.ipRate, cfg.IpCapacity(), u);
    }
  }

  lemma {:induction false} WithinBurst(w: real, burst: real, rate: real, missing: real)
    requires rate > 0.0 && w * rate == missing <= 1.0 <= rate * burst
    ensures w <= burst
  {
    MulLess(burst, w, rate);
    Commute(burst, rate);
  }

  lemma {:induction false} Commute(a: real, b: real)
    ensures a * b == b * a
  {
  }

  /** A wait is at most the time in which one token flows in, which the burst covers. */
  lemma {:induction false} WaitWithinBurst(b: Bucket, rate: real, burst: real)
    requires b.Valid() && b.tokens < 1.0 && b.rate == rate > 0.0 && rate * burst >= 1.0
    ensures TimeUntilAvailable(b).value <= burst
  {
    var w := TimeUntilAvailable(b).value;
    DivMul(1.0 - b.tokens, rate);
    WithinBurst(w, burst, rate, 1.0 - b.tokens);
  }

  lemma {:induction false} RefusingRate(cfg: Config, l: Limiter, ip: Ip, t: real)
    requires cfg.Sane() && LimiterOk(cfg, l, t)
    ensures Refusing(cfg, l, ip, t).rate == if Grants(l.global, One(t)) then cfg.ipRate else cfg.globalRate
  {
    FoundOk(cfg, l, ip, t);
  }

  lemma {:induction false} RefusingWait(cfg: Config, b: Bucket)
    requires Serves(cfg) && b.Valid() && b.tokens < 1.0 && (b.rate == cfg.ipRate || b.rate == cfg.globalRate)
    ensures TimeUntilAvailable(b).value <= cfg.burst
  {
    WaitWithinBurst(b, b.rate, cfg.burst);
  }

  lemma {:induction false} WaitsOut(b: Bucket, t: real, u: real)
    requires b.Valid() && b.rate > 0.0 && b.capacity >= 1.0 && b.tokens < 1.0 && b.last == t <= u
    ensures Grants(b, One(u)) <==> u - t >= TimeUntilAvailable(b).value
  {
    var d := u - t;
    WaitIsExact(b, d);
    assert b.last + d == u;
  }

  lemma {:induction false} RefusedUntil(cfg: Config, l: Limiter, ip: Ip, t: real, u: real) returns (w: real)
    requires Serves(cfg) && LimiterOk(cfg, l, t) && !Allows(cfg, l, ip, t) && t <= u
    ensures Step(cfg, l, Check(ip, t)).1 == Limited(Seconds(w))
    ensures Grants(Refusing(cfg, l, ip, t), One(u)) <==> u - t >= w
    ensures w <= cfg.burst
  {
    var b := Refusing(cfg, l, ip, t);
    RefusingIs(cfg, l, ip, t);
    ServesSane(cfg);
    RefusingRate(cfg, l, ip, t);
    RefusingWait(cfg, b);
    WaitsOut(b, t, u);
    w := TimeUntilAvailable(b).value;
  }

  /** The wait `check` returns is exact for the bucket that refused and says nothing about the other:
      a lone retry at `u` is allowed if and only if the wait is over (or the refused address has been
      forgotten, which a cleanup interval of at least the burst does not allow before) and the other
      bucket grants then. */
  lemma {:induction false} RetryExactly(cfg: Config, l: Limiter, ip: Ip, t: real, u: real)
    requires Serves(cfg) && Reached(cfg, l, t) && t <= u && Step(cfg, l, Check(ip, t)).1.Limited?
    ensures var (r, a) := Step(cfg, l, Check(ip, t));
            && a.wait.Seconds?
            && (Allows(cfg, r, ip, u) <==>
                  (u - t >= a.wait.value || Forgotten(cfg, l, ip, t, u)) && Grants(Other(cfg, l, ip, t, u), One(u)))
            && (cfg.interval >= cfg.burst && Forgotten(cfg, l, ip, t, u) ==> u - t >= a.wait.value)
  {
    ServesSane(cfg);
    OkReached(cfg, l, t);
    var w := RefusedUntil(cfg, l, ip, t, u);
    RetryNeedsBoth(cfg, l, ip, t, u);
  }

  lemma {:induction false} HeaderIsEnough(b: Bucket)
    requires b.Valid() && b.rate > 0.0 && b.capacity >= 1.0 && b.tokens < 1.0
    ensures RetryAfter(TimeUntilAvailable(b)).Delay? && RetryAfter(TimeUntilAvailable(b)).seconds >= 1
    ensures Grants(b, One(b.last + RetryAfter(TimeUntilAvailable(b)).seconds as real))
  {
    DivMul(1.0 - b.tokens, b.rate);
    MulLess(TimeUntilAvailable(b).value, 0.0, b.rate);
    RefusedBucketGrants(b);
  }

  /** When a client that was refused at `t` and waited out the header comes back. */
  function Back(cfg: Config, l: Limiter, ip: Ip, t: real): real
    requires Step(cfg, l, Check(ip, t)).1.Limited? && RetryAfter(Step(cfg, l, Check(ip, t)).1.wait).Delay?
  {
    t + RetryAfter(Step(cfg, l, Check(ip, t)).1.wait).seconds as real
  }

  /** A lone client that waits out the `Retry-After` header (section 10.2.3 of RFC 9110) is allowed if
      and only if the bucket that did not refuse it grants at that time. */
  lemma {:induction false} HeaderExactly(cfg: Config, l: Limiter, ip: Ip, t: real)
    requires Serves(cfg) && Reached(cfg, l, t) && Step(cfg, l, Check(ip, t)).1.Limited?
    ensures RetryAfter(Step(cfg, l, Check(ip, t)).1.wait).Delay?
    ensures var u := Back(cfg, l, ip, t);
            && u >= t + 1.0
            && (Allows(cfg, Step(cfg, l, Check(ip, t)).0, ip, u) <==> Grants(Other(cfg, l, ip, t, u), One(u)))
  {
    ServesSane(cfg);
    OkReached(cfg, l, t);
    var b := Refusing(cfg, l, ip, t);
    RefusingIs(cfg, l, ip, t);
    HeaderIsEnough(b);
    RetryNeedsBoth(cfg, l, ip, t, Back(cfg, l, ip, t));
  }

  // ------------------------------------------------------------------
  // The settings
  // ------------------------------------------------------------------

  /** No reachable refusal sends a lone client back too early. */
  ghost predicate HeaderHonest(cfg: Config) {
    forall l, ip, t | Reached(cfg, l, t) && Step(cfg, l, Check(ip, t)).1.Limited? ::
      && RetryAfter(Step(cfg, l, Check(ip, t)).1.wait).Delay?
      && Allows(cfg, Step(cfg, l, Check(ip, t)).0, ip, Back(cfg, l, ip, t))
  }

  lemma {:induction false} SecondsFlow(d: real, rate: real)
    requires d >= 1.0 && rate >= 1.0
    ensures d * rate >= 1.0
  {
    Scale(1.0, d, rate);
    assert (d - 1.0) * rate == d * rate - rate;
  }

  lemma {:induction false} SecondFills(b: Bucket, u: real)
    requires b.Valid() && b.rate >= 1.0 && b.capacity >= 1.0 && u >= b.last + 1.0
    ensures Grants(b, One(u))
  {
    var d := u - b.last;
    SecondsFlow(d, b.rate);
    assert Refill(b, u).tokens == MinR(b.capacity, b.tokens + d * b.rate);
  }

  /** With both rates at least one per second the header is never too early. */
  lemma {:induction false} FastRatesAreHonest(cfg: Config)
    requires Serves(cfg) && cfg.globalRate >= 1.0 && cfg.ipRate >= 1.0
    ensures HeaderHonest(cfg)
  {
    forall l, ip, t | Reached(cfg, l, t) && Step(cfg, l, Check(ip, t)).1.Limited?
      ensures RetryAfter(Step(cfg, l, Check(ip, t)).1.wait).Delay?
      ensures Allows(cfg, Step(cfg, l, Check(ip, t)).0, ip, Back(cfg, l, ip, t))
    {
      HeaderExactly(cfg, l, ip, t);
      OtherFills(cfg, l, ip, t, Back(cfg, l, ip, t));
    }
  }

  lemma {:induction false} OtherFills(cfg: Config, l: Limiter, ip: Ip, t: real, u: real)
    requires Serves(cfg) && cfg.globalRate >= 1.0 && cfg.ipRate >= 1.0 && Reached(cfg, l, t) && u >= t + 1.0
    ensures Grants(Other(cfg, l, ip, t, u), One(u))
  {
    var r := Step(cfg, l, Check(ip, t)).0;
    ServesSane(cfg);
    OkReached(cfg, l, t);
    OkStep(cfg, l, Check(ip, t));
    if Grants(l.global, One(t)) {
      SecondFills(r.global, u);
    } else {
      assert SeenOk(cfg, r, ip, t);
      if ip in Cleanup(cfg, r, u).buckets {
        SecondFills(Found(cfg, r, ip, u), u);
      } else {
        NewGrants(cfg.ipRate, cfg.IpCapacity(), u);
      }
    }
  }

  // ------------------------------------------------------------------
  // Exactly which settings, when the global bucket has room
  // ------------------------------------------------------------------

  const OTHER: Ip := "b"

  /** The address has too little to refill a token within a second; the global bucket is at `now`. */
  predicate Short(cfg: Config, l: Limiter, now: real) {
    && l.cleans && now - l.lastCleanup < cfg.interval
    && IP in l.buckets && l.buckets[IP].last == now && l.buckets[IP].rate == cfg.ipRate
    && 0.0 <= l.buckets[IP].tokens && l.buckets[IP].tokens + cfg.ipRate < 1.0
    && IP in l.lastSeen && l.lastSeen[IP] == now
    && l.global.rate == cfg.globalRate >= 0.0 && 0.0 <= l.global.tokens <= l.global.capacity
  }

  lemma {:induction false} OtherTakes(cfg: Config, l: Limiter, now: real)
    requires Short(cfg, l, now) && Grants(l.global, One(now)) && l.global.last <= now
    ensures var l' := Step(cfg, l, Check(OTHER, now)).0;
            Short(cfg, l', now) && l'.global.last == now && l'.global.tokens == Refill(l.global, now).tokens - 1.0
  {
    Scale(l.global.last, now, l.global.rate);
    assert Cleanup(cfg, l, now) == l;
  }

  /** Somebody else takes the global tokens that are left. */
  lemma {:induction false} OthersDrain(cfg: Config, l: Limiter, now: real) returns (l': Limiter)
    requires Reached(cfg, l, now) && Short(cfg, l, now) && l.global.last == now
    ensures Reached(cfg, l', now) && Short(cfg, l', now) && l'.global.last == now && l'.global.tokens < 1.0
    decreases l.global.tokens.Floor
  {
    if l.global.tokens < 1.0 {
      l' := l;
    } else {
      RefillNow(l.global);
      OtherTakes(cfg, l, now);
      ReachedStep(cfg, l, now, Check(OTHER, now));
      l' := OthersDrain(cfg, Step(cfg, l, Check(OTHER, now)).0, now);
    }
  }

  lemma {:induction false} ShortWait(b: Bucket)
    requires b.rate > 1.0 && 0.0 <= b.tokens < 1.0
    ensures RetryAfter(TimeUntilAvailable(b)) == Delay(1)
  {
    var w := TimeUntilAvailable(b).value;
    DivMul(1.0 - b.tokens, b.rate);
    WaitIsShort(w, b.rate, 1.0 - b.tokens);
  }

  lemma {:induction false} WaitIsShort(w: real, rate: real, missing: real)
    requires w * rate == missing && 0.0 < missing <= 1.0 < rate
    ensures 0.0 < w < 1.0
  {
    MulLess(w, 1.0, rate);
    MulLess(0.0, w, rate);
    assert 1.0 * rate == rate && 0.0 * rate == 0.0;
  }

  /** The address is sent back after one second, when its own bucket still refuses. */
  lemma {:induction false} SentBackEarly(cfg: Config, l: Limiter, now: real)
    requires Short(cfg, l, now) && l.global.last == now && l.global.tokens < 1.0
    requires cfg.globalRate > 1.0 && cfg.interval >= 1.0
    ensures var (r, a) := Step(cfg, l, Check(IP, now));
            a == Limited(TimeUntilAvailable(l.global)) && RetryAfter(a.wait) == Delay(1) && !Allows(cfg, r, IP, now + 1.0)
  {
    RefillNow(l.global);
    assert Cleanup(cfg, l, now) == l;
    ShortWait(l.global);
    var r := Step(cfg, l, Check(IP, now)).0;
    var second := now + 1.0 - l.buckets[IP].last;
    assert second * cfg.ipRate == cfg.ipRate;
    assert Found(cfg, r, IP, now + 1.0) == l.buckets[IP];
  }

  lemma {:induction false} SlowAddressIsMisled(cfg: Config, l: Limiter, now: real)
    requires Reached(cfg, l, now) && Short(cfg, l, now) && l.global.last <= now && Grants(l.global, One(now))
    requires cfg.globalRate > 1.0 && cfg.interval >= 1.0
    ensures !HeaderHonest(cfg)
  {
    OtherTakes(cfg, l, now);
    ReachedStep(cfg, l, now, Check(OTHER, now));
    var l' := OthersDrain(cfg, Step(cfg, l, Check(OTHER, now)).0, now);
    SentBackEarly(cfg, l', now);
  }

  lemma {:induction false} ReachedChecks(cfg: Config, n: nat)
    ensures Reached(cfg, RunOps(cfg, Start(cfg, true, 0.0), Checks(n)), 0.0)
  {
    if n == 0 {
      ReachedStart(cfg, 0.0);
    } else {
      ReachedChecks(cfg, n - 1);
      RunSnoc(cfg, Start(cfg, true, 0.0), Checks(n - 1), Check(IP, 0.0));
      ReachedStep(cfg, RunOps(cfg, Start(cfg, true, 0.0), Checks(n - 1)), 0.0, Check(IP, 0.0));
    }
  }

  lemma {:induction false} HoldsShort(cfg: Config, l: Limiter, t: real, tokens: real, spent: real)
    requires Roomy(cfg) && Holds(cfg, l, true, t, tokens, spent) && 0.0 <= spent <= cfg.IpCapacity() + 1.0
    requires 0.0 <= tokens && tokens + cfg.ipRate < 1.0 && 0.0 <= t < cfg.interval
    ensures Short(cfg, l, t) && Grants(l.global, One(t)) && l.global.last <= t
  {
    GlobalGrants(cfg, l.global, t, spent, t);
  }

  /** A slow address can always be emptied far enough. */
  lemma {:induction false} ReachShort(cfg: Config) returns (l: Limiter, t: real)
    requires Roomy(cfg) && cfg.ipRate < 1.0 && cfg.interval > 1.0
    ensures Reached(cfg, l, t) && Short(cfg, l, t) && Grants(l.global, One(t)) && l.global.last <= t
  {
    var n := cfg.IpCapacity().Floor;
    var left := cfg.IpCapacity() - n as real;
    ReachedChecks(cfg, n);
    Drain(cfg, true, n);
    l, t := RunOps(cfg, Start(cfg, true, 0.0), Checks(n)), 0.0;
    if left + cfg.ipRate < 1.0 {
      HoldsShort(cfg, l, 0.0, left, n as real);
    } else {
      t := (1.0 - left) / cfg.ipRate;
      WithinSecond(left, cfg.ipRate, t);
      LastToken(cfg, true, n, left, t);
      RunSnoc(cfg, Start(cfg, true, 0.0), Checks(n), Check(IP, t));
      ReachedStep(cfg, l, 0.0, Check(IP, t));
      l := Step(cfg, l, Check(IP, t)).0;
      HoldsShort(cfg, l, t, 0.0, n as real + 1.0);
    }
  }

  lemma {:induction false} WithinSecond(left: real, rate: real, t: real)
    requires rate > 0.0 && 0.0 <= left < 1.0 && left + rate >= 1.0 && t == (1.0 - left) / rate
    ensures t * rate == 1.0 - left && 0.0 < t <= 1.0
  {
    DivMul(1.0 - left, rate);
    MulLess(0.0, t, rate);
    MulLess(1.0, t, rate);
  }

  /** When the global bucket refills faster than one per second and leaves room for one address, the
      header never sends a lone client back too early if and only if `per_ip_rate >= 1`. */
  lemma {:induction false} HonestExactly(cfg: Config)
    requires Roomy(cfg) && cfg.globalRate > 1.0 && cfg.interval > 1.0
    ensures HeaderHonest(cfg) <==> cfg.ipRate >= 1.0
  {
    if cfg.ipRate >= 1.0 {
      FastRatesAreHonest(cfg);
    } else {
      var l, t := ReachShort(cfg);
      SlowAddressIsMisled(cfg, l, t);
    }
  }

  // ------------------------------------------------------------------
  // A run
  // ------------------------------------------------------------------

  const SLOW := Config(1.0, 0.25, 4.0, 300.0)

  /** One more address takes its only token and the last but `left` of the global ones, all at time 0. */
  lemma {:induction false} FirstOfAddress(l: Limiter, ip: Ip, left: real)
    requires l.cleans && l.lastCleanup == 0.0 && ip !in l.buckets
    requires l.global == Bucket(1.0, 4.0, left + 1.0, 0.0) && 0.0 <= left <= 3.0
    ensures var (r, a) := Step(SLOW, l, Check(ip, 0.0));
            && a == Allowed && r.global == Bucket(1.0, 4.0, left, 0.0) && r.cleans && r.lastCleanup == 0.0
            && r.buckets == l.buckets[ip := Bucket(0.25, 1.0, 0.0, 0.0)] && r.lastSeen == l.lastSeen[ip := 0.0]
  {
    RefillNow(l.global);
    RefillNow(New(SLOW.ipRate, SLOW.IpCapacity(), 0.0));
    assert Cleanup(SLOW, l, 0.0) == l;
  }

  /** Four addresses take their only token. */
  lemma {:induction false} FourAddresses() returns (l: Limiter)
    ensures Reached(SLOW, l, 0.0) && l.cleans && l.lastCleanup == 0.0 && l.global == Bucket(1.0, 4.0, 0.0, 0.0)
    ensures "a" in l.buckets && l.buckets["a"] == Bucket(0.25, 1.0, 0.0, 0.0) && "a" in l.lastSeen && l.lastSeen["a"] == 0.0
  {
    l := Start(SLOW, true, 0.0);
    ReachedStart(SLOW, 0.0);
    l := TakeOne(l, "a", 3.0);
    l := TakeOne(l, "b", 2.0);
    l := TakeOne(l, "c", 1.0);
    l := TakeOne(l, "d", 0.0);
  }

  lemma {:induction false} TakeOne(l: Limiter, ip: Ip, left: real) returns (r: Limiter)
    requires Reached(SLOW, l, 0.0) && l.cleans && l.lastCleanup == 0.0 && ip !in l.buckets
    requires l.global == Bucket(1.0, 4.0, left + 1.0, 0.0) && 0.0 <= left <= 3.0
    ensures Reached(SLOW, r, 0.0) && r.cleans && r.lastCleanup == 0.0 && r.global == Bucket(1.0, 4.0, left, 0.0)
    ensures r.buckets == l.buckets[ip := Bucket(0.25, 1.0, 0.0, 0.0)] && r.lastSeen == l.lastSeen[ip := 0.0]
  {
    FirstOfAddress(l, ip, left);
    ReachedStep(SLOW, l, 0.0, Check(ip, 0.0));
    r := Step(SLOW, l, Check(ip, 0.0)).0;
  }

  /** After four addresses took their tokens, the first one is refused by the global bucket, told to come
      back after two seconds, and then refused by its own bucket, though nobody else has called. */
  lemma {:induction false} HeaderTooEarly() returns (l: Limiter)
    ensures Serves(SLOW) && Reached(SLOW, l, 0.0)
    ensures var (r, a) := Step(SLOW, l, Check("a", 0.0));
            a == Limited(Seconds(1.0)) && RetryAfter(a.wait) == Delay(2) && !Allows(SLOW, r, "a", 2.0)
  {
    l := FourAddresses();
    assert SLOW.GlobalCapacity() == 4.0 && SLOW.IpCapacity() == 1.0;
    GloballyRefused(l, "a");
    StillRefused(l);
  }

  lemma {:induction false} GloballyRefused(l: Limiter, ip: Ip)
    requires l.cleans && l.lastCleanup == 0.0 && l.global == Bucket(1.0, 4.0, 0.0, 0.0)
    ensures Step(SLOW, l, Check(ip, 0.0)) == (l, Limited(Seconds(1.0)))
  {
    RefillNow(l.global);
    assert Cleanup(SLOW, l, 0.0) == l;
    assert TimeUntilAvailable(l.global) == Seconds(1.0);
  }

  lemma {:induction false} StillRefused(l: Limiter)
    requires l.cleans && l.lastCleanup == 0.0 && "a" in l.buckets && l.buckets["a"] == Bucket(0.25, 1.0, 0.0, 0.0)
    ensures !Allows(SLOW, l, "a", 2.0)
  {
    assert Cleanup(SLOW, l, 2.0) == l;
    assert Refill(l.buckets["a"], 2.0).tokens == 0.5;
    AllowsExactly(SLOW, l, "a", 2.0);
  }
}
