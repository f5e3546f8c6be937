/** How many requests the limiter lets through in a window of time. */
module LimiterWindow {
  import opened TokenBucket
  import opened RateLimiter

  /** Whose requests are counted: one address, or everybody. */
  datatype Who = Address(ip: Ip) | Everybody

  predicate Counts(who: Who, op: Op, from: real, to: real) {
    op.Check? && (who == Everybody || who == Address(op.ip)) && from <= op.at <= to
  }

  /** The checks of the window `[from, to]` that were allowed. */
  function AllowedIn(ops: seq<Op>, answers: seq<Answer>, who: Who, from: real, to: real): nat
    requires |ops| == |answers|
  {
    if ops == [] then 0
    else (if answers[0].Allowed? && Counts(who, ops[0], from, to) then 1 else 0)
         + AllowedIn(ops[1..], answers[1..], who, from, to)
  }

  lemma {:induction false} OneAnswerEach(cfg: Config, l: Limiter, ops: seq<Op>)
    ensures |Answers(cfg, l, ops)| == |ops|
    decreases |ops|
  {
    if ops != [] {
      OneAnswerEach(cfg, Step(cfg, l, ops[0]).0, ops[1..]);
    }
  }

  // ------------------------------------------------------------------
  // The budget of one bucket
  // ------------------------------------------------------------------

  /** What a bucket can still grant in the window: all it could ever have before its first poll there,
      then what it holds and what still flows in. */
  function Budget(b: Bucket, from: real, to: real, rate: real, capacity: real): real {
    if b.last >= from then b.tokens + (to - b.last) * rate else capacity + (to - from) * rate
  }

  predicate Like(b: Bucket, rate: real, capacity: real, now: real) {
    b.Valid() && b.rate == rate && b.capacity == capacity && b.last <= now
  }

  lemma {:induction false} FlowsIn(tokens: real, a: real, b: real, rate: real)
    requires tokens >= 0.0 && a <= b && rate >= 0.0
    ensures tokens + (b - a) * rate >= 0.0
  {
    Scale(a, b, rate);
  }

  lemma {:induction false} BudgetNotNegative(b: Bucket, now: real, from: real, to: real, rate: real, capacity: real)
    requires Like(b, rate, capacity, now) && now <= to && from <= to
    ensures Budget(b, from, to, rate, capacity) >= 0.0
  {
    if b.last >= from {
      FlowsIn(b.tokens, b.last, to, rate);
    } else {
      FlowsIn(capacity, from, to, rate);
    }
  }

  /** Each counted poll that is granted costs one. */
  lemma {:induction false} BudgetPoll(b: Bucket, p: Poll, from: real, to: real, rate: real, capacity: real)
    requires Like(b, rate, capacity, p.at) && p.amount == 1.0 && p.at <= to && from <= to
    ensures Like(Consume(b, p), rate, capacity, p.at)
    ensures (if Grants(b, p) && from <= p.at then 1.0 else 0.0) + Budget(Consume(b, p), from, to, rate, capacity)
            <= Budget(b, from, to, rate, capacity)
  {
    var b' := Consume(b, p);
    ConsumeValid(b, p);
    SpentAndLeft(b, p, (p.at - b.last) * b.rate);
    if from <= b.last {
      InflowLeft(Spent(b, p), b'.tokens, b.tokens, b.last, p.at, to, rate);
    } else if from <= p.at {
      FirstPoll(Spent(b, p), b'.tokens, capacity, from, p.at, rate);
      InflowLeft(Spent(b, p), b'.tokens, capacity, from, p.at, to, rate);
    }
  }

  lemma {:induction false} InflowLeft(spent: real, left: real, had: real, a: real, at: real, to: real, rate: real)
    requires spent + left <= had + (at - a) * rate
    ensures spent + (left + (to - at) * rate) <= had + (to - a) * rate
  {
    SplitTime(a, at, to, rate);
  }

  lemma {:induction false} BudgetNew(now: real, from: real, to: real, rate: real, capacity: real)
    requires now <= to && from <= to && rate >= 0.0
    ensures Budget(New(rate, capacity, now), from, to, rate, capacity) <= capacity + (to - from) * rate
  {
    SplitTime(from, now, to, rate);
    if from <= now {
      Scale(from, now, rate);
    }
  }

  // ------------------------------------------------------------------
  // The limiter
  // ------------------------------------------------------------------

  function Rate(cfg: Config, who: Who): real { if who.Everybody? then cfg.globalRate else cfg.ipRate }

  function Capacity(cfg: Config, who: Who): real { Rate(cfg, who) * cfg.burst }

  /** What may still be allowed. */
  function Left(cfg: Config, l: Limiter, who: Who, from: real, to: real): real {
    if who.Everybody? then Budget(l.global, from, to, cfg.globalRate, cfg.GlobalCapacity())
    else if who.ip in l.buckets then Budget(l.buckets[who.ip], from, to, cfg.ipRate, cfg.IpCapacity())
    else cfg.IpCapacity() + (to - from) * cfg.ipRate
  }

  function Cost(cfg: Config, l: Limiter, op: Op, who: Who, from: real, to: real): nat {
    if Step(cfg, l, op).1.Allowed? && Counts(who, op, from, to) then 1 else 0
  }

  lemma {:induction false} TouchLeft(cfg: Config, l: Limiter, ip: Ip, now: real, who: Who, from: real, to: real)
    requires cfg.Sane() && now <= to && from <= to
    ensures Left(cfg, Touch(cfg, l, ip, now), who, from, to) <= Left(cfg, l, who, from, to)
  {
    BudgetNew(now, from, to, cfg.ipRate, cfg.IpCapacity());
  }

  lemma {:induction false} GlobalLeft(cfg: Config, l: Limiter, op: Op, from: real, to: real)
    requires cfg.Sane() && LimiterOk(cfg, l, op.at) && op.at <= to && from <= to
    ensures Cost(cfg, l, op, Everybody, from, to) as real + Left(cfg, Step(cfg, l, op).0, Everybody, from, to)
            <= Left(cfg, l, Everybody, from, to)
  {
    if op.Check? {
      BudgetPoll(l.global, Poll(op.at, 1.0), from, to, cfg.globalRate, cfg.GlobalCapacity());
    }
  }

  lemma {:induction false} AddressLeft(cfg: Config, l: Limiter, op: Op, ip: Ip, from: real, to: real)
    requires cfg.Sane() && LimiterOk(cfg, l, op.at) && op.at <= to && from <= to && !l.cleans
    ensures Cost(cfg, l, op, Address(ip), from, to) as real + Left(cfg, Step(cfg, l, op).0, Address(ip), from, to)
            <= Left(cfg, l, Address(ip), from, to)
  {
    var now, who := op.at, Address(ip);
    TouchLeft(cfg, l, op.ip, now, who, from, to);
    if op.Check? && op.ip == ip && Grants(l.global, Poll(now, 1.0)) {
      OkTouch(cfg, l, ip, now);
      var r := Touch(cfg, l, ip, now);
      assert SeenOk(cfg, r, ip, now);
      BudgetPoll(r.buckets[ip], Poll(now, 1.0), from, to, cfg.ipRate, cfg.IpCapacity());
    }
  }

  lemma {:induction false} StepLeft(cfg: Config, l: Limiter, op: Op, who: Who, from: real, to: real)
    requires cfg.Sane() && LimiterOk(cfg, l, op.at) && op.at <= to && from <= to && (who.Everybody? || !l.cleans)
    ensures Cost(cfg, l, op, who, from, to) as real + Left(cfg, Step(cfg, l, op).0, who, from, to)
            <= Left(cfg, l, who, from, to)
    ensures Step(cfg, l, op).0.cleans == l.cleans
  {
    match who
    case Everybody => GlobalLeft(cfg, l, op, from, to);
    case Address(ip) => AddressLeft(cfg, l, op, ip, from, to);
  }

  lemma {:induction false} LeftNotNegative(cfg: Config, l: Limiter, now: real, who: Who, from: real, to: real)
    requires cfg.Sane() && LimiterOk(cfg, l, now) && now <= to && from <= to
    ensures Left(cfg, l, who, from, to) >= 0.0
  {
    Capacities(cfg);
    Scale(from, to, cfg.ipRate);
    if who.Everybody? {
      BudgetNotNegative(l.global, now, from, to, cfg.globalRate, cfg.GlobalCapacity());
    } else if who.ip in l.buckets {
      assert SeenOk(cfg, l, who.ip, now);
      BudgetNotNegative(l.buckets[who.ip], now, from, to, cfg.ipRate, cfg.IpCapacity());
    }
  }

  lemma {:induction false} NothingAfter(ops: seq<Op>, answers: seq<Answer>, now: real, who: Who, from: real, to: real)
    requires |ops| == |answers| && Ordered(now, ops) && to < now
    ensures AllowedIn(ops, answers, who, from, to) == 0
    decreases |ops|
  {
    if ops != [] {
      NothingAfter(ops[1..], answers[1..], ops[0].at, who, from, to);
    }
  }

  lemma {:induction false} AllowedCons(cfg: Config, l: Limiter, ops: seq<Op>, who: Who, from: real, to: real)
    requires ops != [] && |Answers(cfg, l, ops)| == |ops| && |Answers(cfg, Step(cfg, l, ops[0]).0, ops[1..])| == |ops| - 1
    ensures AllowedIn(ops, Answers(cfg, l, ops), who, from, to) ==
            Cost(cfg, l, ops[0], who, from, to)
            + AllowedIn(ops[1..], Answers(cfg, Step(cfg, l, ops[0]).0, ops[1..]), who, from, to)
  {
    assert Answers(cfg, l, ops)[1..] == Answers(cfg, Step(cfg, l, ops[0]).0, ops[1..]);
  }

  lemma {:induction false} AllowedWithinLeft(
    cfg: Config, l: Limiter, now: real, ops: seq<Op>, who: Who, from: real, to: real)
    requires cfg.Sane() && LimiterOk(cfg, l, now) && Ordered(now, ops) && now <= to && from <= to
    requires (who.Everybody? || !l.cleans) && |Answers(cfg, l, ops)| == |ops|
    ensures AllowedIn(ops, Answers(cfg, l, ops), who, from, to) as real <= Left(cfg, l, who, from, to)
    decreases |ops|
  {
    LeftNotNegative(cfg, l, now, who, from, to);
    if ops != [] {
      var next := Step(cfg, l, ops[0]).0;
      OneAnswerEach(cfg, next, ops[1..]);
      AllowedCons(cfg, l, ops, who, from, to);
      if ops[0].at <= to {
        OkLater(cfg, l, now, ops[0].at);
        OkStep(cfg, l, ops[0]);
        StepLeft(cfg, l, ops[0], who, from, to);
        AllowedWithinLeft(cfg, next, ops[0].at, ops[1..], who, from, to);
      } else {
        NothingAfter(ops[1..], Answers(cfg, next, ops[1..]), ops[0].at, who, from, to);
      }
    }
  }

  lemma {:induction false} StartLeft(cfg: Config, cleans: bool, at: real, who: Who, from: real, to: real)
    requires cfg.Sane() && at <= to && from <= to
    ensures Left(cfg, Start(cfg, cleans, at), who, from, to) <= Capacity(cfg, who) + (to - from) * Rate(cfg, who)
  {
    BudgetNew(at, from, to, cfg.globalRate, cfg.GlobalCapacity());
  }

  lemma {:induction false} WindowFromStart(
    cfg: Config, cleans: bool, at: real, ops: seq<Op>, who: Who, from: real, to: real)
    requires cfg.Sane() && Ordered(at, ops) && from <= to && (who.Everybody? || !cleans)
    requires |Answers(cfg, Start(cfg, cleans, at), ops)| == |ops|
    ensures AllowedIn(ops, Answers(cfg, Start(cfg, cleans, at), ops), who, from, to) as real
            <= Capacity(cfg, who) + (to - from) * Rate(cfg, who)
  {
    var l := Start(cfg, cleans, at);
    if at <= to {
      OkStart(cfg, cleans, at);
      StartLeft(cfg, cleans, at, who, from, to);
      AllowedWithinLeft(cfg, l, at, ops, who, from, to);
    } else {
      NothingAfter(ops, Answers(cfg, l, ops), at, who, from, to);
      Scale(0.0, cfg.burst, Rate(cfg, who));
      Scale(from, to, Rate(cfg, who));
    }
  }

  /** In every run and every window, the limiter allows at most `global_rate * (burst + length)` requests
      in all, and at most `per_ip_rate * (burst + length)` of one address when its cleanup waits at
      least for the burst, however often it deletes and recreates buckets. */
  lemma {:induction false} LimiterWindowBound(cfg: Config, at: real, ops: seq<Op>, who: Who, from: real, to: real)
    requires cfg.Sane() && Ordered(at, ops) && from <= to
    requires who.Everybody? || (cfg.ipRate > 0.0 && cfg.interval >= cfg.burst)
    ensures |Answers(cfg, Start(cfg, true, at), ops)| == |ops|
    ensures AllowedIn(ops, Answers(cfg, Start(cfg, true, at), ops), who, from, to) as real
            <= Capacity(cfg, who) + (to - from) * Rate(cfg, who)
  {
    OneAnswerEach(cfg, Start(cfg, true, at), ops);
    if who.Everybody? {
      WindowFromStart(cfg, true, at, ops, who, from, to);
    } else {
      CleanupIsInvisible(cfg, at, ops);
      WindowFromStart(cfg, false, at, ops, who, from, to);
    }
  }
}
