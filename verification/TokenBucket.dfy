/** The token bucket over exact reals. */
module TokenBucket {

  datatype Bucket = Bucket(rate: real, capacity: real, tokens: real, last: real) {
    predicate Valid() {
      rate >= 0.0 && 0.0 <= tokens <= capacity
    }
  }

  /** One request for tokens. */
  datatype Poll = Poll(at: real, amount: real)

  function MinR(a: real, b: real): real { if a <= b then a else b }

  function New(rate: real, capacity: real, now: real): Bucket {
    Bucket(rate, capacity, capacity, now)
  }

  function Refill(b: Bucket, now: real): Bucket {
    b.(tokens := MinR(b.capacity, b.tokens + (now - b.last) * b.rate), last := now)
  }

  predicate Grants(b: Bucket, p: Poll) {
    Refill(b, p.at).tokens >= p.amount
  }

  function Consume(b: Bucket, p: Poll): Bucket {
    var r := Refill(b, p.at);
    if Grants(b, p) then r.(tokens := r.tokens - p.amount) else r
  }

  /** Times never go back and amounts are not negative. */
  predicate Timely(from: real, polls: seq<Poll>)
    decreases |polls|
  {
    polls == [] ||
    (polls[0].amount >= 0.0 && polls[0].at >= from && Timely(polls[0].at, polls[1..]))
  }

  function After(b: Bucket, polls: seq<Poll>): Bucket
    decreases |polls|
  {
    if polls == [] then b else After(Consume(b, polls[0]), polls[1..])
  }

  function Granted(b: Bucket, polls: seq<Poll>): real
    decreases |polls|
  {
    if polls == [] then 0.0
    else (if Grants(b, polls[0]) then polls[0].amount else 0.0) + Granted(Consume(b, polls[0]), polls[1..])
  }

  // ------------------------------------------------------------------
  // The window bound
  // ------------------------------------------------------------------

  lemma {:induction false} Scale(a: real, b: real, r: real)
    requires a <= b && r >= 0.0
    ensures (b - a) * r >= 0.0
  {
  }

  lemma {:induction false} SplitTime(a: real, b: real, c: real, r: real)
    ensures (c - a) * r == (c - b) * r + (b - a) * r
  {
  }

  lemma {:induction false} ConsumeValid(b: Bucket, p: Poll)
    requires b.Valid() && b.last <= p.at && p.amount >= 0.0
    ensures Consume(b, p).Valid() && Consume(b, p).last == p.at
    ensures Consume(b, p).rate == b.rate && Consume(b, p).capacity == b.capacity
  {
    Scale(b.last, p.at, b.rate);
    var inflow := (p.at - b.last) * b.rate;
    assert Refill(b, p.at).tokens == MinR(b.capacity, b.tokens + inflow);
  }

  lemma {:induction false} TimelyPrefix(from: real, polls: seq<Poll>, j: nat)
    requires Timely(from, polls) && j <= |polls|
    ensures Timely(from, polls[..j])
    decreases |polls|
  {
    if j > 0 {
      TimelyPrefix(polls[0].at, polls[1..], j - 1);
      assert polls[..j][1..] == polls[1..][..j - 1];
    }
  }

  lemma {:induction false} AddInflow(g: real, g': real, tokens: real, tokens': real, a: real, b: real, c: real, r: real)
    requires g + tokens' <= tokens + (b - a) * r && g' <= tokens' + (c - b) * r
    ensures g + g' <= tokens + (c - a) * r
  {
    SplitTime(a, b, c, r);
  }

  predicate Until(polls: seq<Poll>, t: real) {
    forall i :: 0 <= i < |polls| ==> polls[i].at <= t
  }

  function Spent(b: Bucket, p: Poll): real { if Grants(b, p) then p.amount else 0.0 }

  /** One poll spends what was there or flowed in since the last one. */
  lemma {:induction false} SpentAndLeft(b: Bucket, p: Poll, inflow: real)
    requires b.Valid() && b.last <= p.at && p.amount >= 0.0 && inflow == (p.at - b.last) * b.rate
    ensures Spent(b, p) + Consume(b, p).tokens <= b.tokens + inflow
    ensures Spent(b, p) + Consume(b, p).tokens <= b.capacity
  {
    assert Refill(b, p.at).tokens == MinR(b.capacity, b.tokens + inflow);
  }

  lemma {:induction false} GrantedCons(b: Bucket, polls: seq<Poll>)
    requires polls != []
    ensures Granted(b, polls) == Spent(b, polls[0]) + Granted(Consume(b, polls[0]), polls[1..])
  {
  }

  lemma {:induction false} UntilTail(polls: seq<Poll>, t: real)
    requires Until(polls, t) && polls != []
    ensures polls[0].at <= t && Until(polls[1..], t)
  {
  }

  /** What is granted up to time `t` was there before or flowed in since. */
  lemma {:induction false} GrantedFrom(b: Bucket, polls: seq<Poll>, t: real, inflow: real)
    requires b.Valid() && b.last <= t && Timely(b.last, polls) && Until(polls, t) && inflow == (t - b.last) * b.rate
    ensures Granted(b, polls) <= b.tokens + inflow
    decreases |polls|
  {
    if polls == [] {
      Scale(b.last, t, b.rate);
    } else {
      var p, b' := polls[0], Consume(b, polls[0]);
      var early, late := (p.at - b.last) * b.rate, (t - p.at) * b.rate;
      UntilTail(polls, t);
      ConsumeValid(b, p);
      SpentAndLeft(b, p, early);
      SplitTime(b.last, p.at, t, b.rate);
      GrantedFrom(b', polls[1..], t, late);
      GrantedCons(b, polls);
    }
  }

  /** The same from the first poll of a window, where at most the capacity can be there. */
  lemma {:induction false} GrantedInWindow(b: Bucket, polls: seq<Poll>, from: real, to: real, rate: real, capacity: real)
    requires b.Valid() && b.rate == rate && b.capacity == capacity
    requires Timely(b.last, polls) && from <= to && Until(polls, to)
    requires polls != [] ==> from <= polls[0].at
    ensures Granted(b, polls) <= capacity + (to - from) * rate
  {
    if polls == [] {
      Scale(from, to, rate);
    } else {
      var p, b' := polls[0], Consume(b, polls[0]);
      ConsumeValid(b, p);
      UntilTail(polls, to);
      GrantedFrom(b', polls[1..], to, (to - p.at) * rate);
      SpentAndLeft(b, p, (p.at - b.last) * b.rate);
      GrantedCons(b, polls);
      FirstPoll(Spent(b, p), b'.tokens, capacity, from, p.at, rate);
      AddInflow(Spent(b, p), Granted(b', polls[1..]), capacity, b'.tokens, from, p.at, to, rate);
    }
  }

  lemma {:induction false} FirstPoll(g: real, tokens: real, capacity: real, from: real, at: real, rate: real)
    requires g + tokens <= capacity && from <= at && rate >= 0.0
    ensures g + tokens <= capacity + (at - from) * rate
  {
    Scale(from, at, rate);
  }

  lemma {:induction false} AfterStep(b: Bucket, polls: seq<Poll>, i: nat)
    requires 0 < i <= |polls|
    ensures After(b, polls[..i]) == After(Consume(b, polls[0]), polls[1..][..i - 1])
  {
    assert polls[..i][1..] == polls[1..][..i - 1] && polls[..i][0] == polls[0];
  }

  lemma {:induction false} AfterValid(b: Bucket, polls: seq<Poll>, i: nat)
    requires b.Valid() && Timely(b.last, polls) && i <= |polls|
    ensures After(b, polls[..i]).Valid()
    ensures After(b, polls[..i]).rate == b.rate && After(b, polls[..i]).capacity == b.capacity
    ensures Timely(After(b, polls[..i]).last, polls[i..])
    decreases |polls|
  {
    if i == 0 {
      assert polls[..0] == [] && polls[0..] == polls;
    } else {
      ConsumeValid(b, polls[0]);
      AfterValid(Consume(b, polls[0]), polls[1..], i - 1);
      AfterStep(b, polls, i);
      assert polls[1..][i - 1..] == polls[i..];
    }
  }

  lemma {:induction false} WindowFrom(
    c: Bucket, polls: seq<Poll>, i: nat, j: nat, from: real, to: real, rate: real, capacity: real)
    requires c.Valid() && c.rate == rate && c.capacity == capacity && i <= j <= |polls| && from <= to
    requires Timely(c.last, polls[i..])
    requires forall k :: i <= k < j ==> from <= polls[k].at <= to
    ensures Granted(c, polls[i..j]) <= capacity + (to - from) * rate
  {
    TimelyPrefix(c.last, polls[i..], j - i);
    assert polls[i..][..j - i] == polls[i..j];
    GrantedInWindow(c, polls[i..j], from, to, rate, capacity);
  }

  /** In every run and every window `[from, to]`, the tokens granted by the polls that fall into the
      window are at most `capacity + rate * (to - from)`. */
  lemma {:induction false} WindowBound(
    b: Bucket, polls: seq<Poll>, i: nat, j: nat, from: real, to: real, rate: real, capacity: real)
    requires b.Valid() && b.rate == rate && b.capacity == capacity
    requires Timely(b.last, polls) && i <= j <= |polls| && from <= to
    requires forall k :: i <= k < j ==> from <= polls[k].at <= to
    ensures Granted(After(b, polls[..i]), polls[i..j]) <= capacity + (to - from) * rate
  {
    AfterValid(b, polls, i);
    WindowFrom(After(b, polls[..i]), polls, i, j, from, to, rate, capacity);
  }

  // ------------------------------------------------------------------
  // Waiting after a rejection
  // ------------------------------------------------------------------

  /** `time_until_available`. */
  datatype Wait = Seconds(value: real) | Forever

  function TimeUntilAvailable(b: Bucket): Wait {
    if b.tokens >= 1.0 then Seconds(0.0)
    else if b.rate > 0.0 then Seconds((1.0 - b.tokens) / b.rate)
    else Forever
  }

  lemma {:induction false} DivMul(a: real, r: real)
    requires r > 0.0
    ensures a / r * r == a
  {
  }

  lemma {:induction false} MulLess(a: real, b: real, r: real)
    requires r > 0.0
    ensures a < b <==> a * r < b * r
  {
    if a < b {
      Scale(a, b, r);
      assert (b - a) * r == b * r - a * r;
      assert (b - a) * r > 0.0;
    } else {
      Scale(b, a, r);
      assert (a - b) * r == a * r - b * r;
    }
  }

  /** The returned wait is the exact earliest time at which a lone retry succeeds: a poll after `d`
      seconds is granted if and only if `d` is at least the wait. */
  lemma {:induction false} WaitIsExact(b: Bucket, d: real)
    requires b.Valid() && b.rate > 0.0 && b.capacity >= 1.0 && b.tokens < 1.0 && d >= 0.0
    ensures Grants(b, Poll(b.last + d, 1.0)) <==> d >= TimeUntilAvailable(b).value
  {
    var w := TimeUntilAvailable(b).value;
    DivMul(1.0 - b.tokens, b.rate);
    assert w * b.rate == 1.0 - b.tokens;
    MulLess(d, w, b.rate);
    assert b.last + d - b.last == d;
  }

  /** With a capacity below one token nothing is ever granted, whatever the wait says. */
  lemma {:induction false} SmallBucketNeverGrants(b: Bucket, p: Poll)
    requires b.capacity < 1.0 && p.amount >= 1.0
    ensures !Grants(b, p)
  {
  }

  /** The level a bucket that is not yet full will have at time `t`. */
  function LevelAt(b: Bucket, t: real): real { b.tokens + (t - b.last) * b.rate }

  /** One bucket's own failed polls do not postpone its retry: after any number of them it grants
      at exactly the same time. */
  lemma {:induction false} FailedPollsDoNotPostpone(b: Bucket, polls: seq<Poll>, ready: real)
    requires b.Valid() && b.rate > 0.0 && b.capacity >= 1.0 && b.tokens < 1.0
    requires ready == b.last + TimeUntilAvailable(b).value
    requires Timely(b.last, polls)
    requires forall i :: 0 <= i < |polls| ==> polls[i].at < ready && polls[i].amount == 1.0
    ensures Granted(b, polls) == 0.0
    ensures After(b, polls).last <= ready
    ensures Grants(After(b, polls), Poll(ready, 1.0))
    decreases |polls|
  {
    var w := TimeUntilAvailable(b).value;
    WaitIsExact(b, w);
    DivMul(1.0 - b.tokens, b.rate);
    MulLess(w, 0.0, b.rate);
    if polls != [] {
      var p := polls[0];
      var d := p.at - b.last;
      WaitIsExact(b, d);
      assert b.last + d == p.at;
      var b' := Consume(b, p);
      assert !Grants(b, p);
      ConsumeValid(b, p);
      assert b'.tokens == LevelAt(b, p.at);
      SameReady(b, b', p.at, ready);
      FailedPollsDoNotPostpone(b', polls[1..], ready);
    }
  }

  /** A refill that grants nothing leaves the time of readiness where it was. */
  lemma {:induction false} SameReady(b: Bucket, b': Bucket, at: real, ready: real)
    requires b.rate > 0.0 && b'.rate == b.rate && b'.last == at && b'.tokens == LevelAt(b, at)
    requires b.tokens < 1.0 && b'.tokens < 1.0
    requires ready == b.last + TimeUntilAvailable(b).value
    ensures ready == b'.last + TimeUntilAvailable(b').value
  {
    var w, w' := TimeUntilAvailable(b).value, TimeUntilAvailable(b').value;
    DivMul(1.0 - b.tokens, b.rate);
    DivMul(1.0 - b'.tokens, b.rate);
    assert (at - b.last) * b.rate == w * b.rate - w' * b.rate;
    assert (w - w') * b.rate == w * b.rate - w' * b.rate;
    MulLess(at - b.last, w - w', b.rate);
    MulLess(w - w', at - b.last, b.rate);
  }

  // ------------------------------------------------------------------
  // The Retry-After header
  // ------------------------------------------------------------------

  datatype Header = Delay(seconds: int) | Unrepresentable

  /** `int(retry_after) + 1`, or one second when the wait is zero; an infinite wait has no integer. */
  function RetryAfter(w: Wait): Header {
    match w
    case Forever => Unrepresentable
    case Seconds(v) => if v == 0.0 then Delay(1) else Delay(v.Floor + 1)
  }

  /** The bucket that refused grants a lone poll once the delay of the header is over, which is less than a
      second or exactly one second more than its wait. */
  lemma {:induction false} RefusedBucketGrants(b: Bucket)
    requires b.Valid() && b.rate > 0.0 && b.capacity >= 1.0 && b.tokens < 1.0
    ensures RetryAfter(TimeUntilAvailable(b)).Delay?
    ensures Grants(b, Poll(b.last + RetryAfter(TimeUntilAvailable(b)).seconds as real, 1.0))
    ensures 0.0 < RetryAfter(TimeUntilAvailable(b)).seconds as real - TimeUntilAvailable(b).value <= 1.0
  {
    var w := TimeUntilAvailable(b).value;
    DivMul(1.0 - b.tokens, b.rate);
    MulLess(w, 0.0, b.rate);
    var d := RetryAfter(Seconds(w)).seconds as real;
    assert d >= w;
    WaitIsExact(b, d);
  }

  /** The header exists unless a rejected bucket never refills: then the conversion itself fails. */
  lemma {:induction false} HeaderExistsExactly(b: Bucket)
    requires b.Valid()
    ensures RetryAfter(TimeUntilAvailable(b)).Delay? <==> b.rate > 0.0 || b.tokens >= 1.0
  {
  }

  // ------------------------------------------------------------------
  // The object
  // ------------------------------------------------------------------

  class Tokens {
    const rate: real
    const capacity: real
    var tokens: real
    var lastRefill: real

    function View(): Bucket
      reads this
    {
      Bucket(rate, capacity, tokens, lastRefill)
    }

    constructor (rate: real, capacity: real, now: real)
      ensures View() == New(rate, capacity, now)
    {
      this.rate, this.capacity := rate, capacity;
      tokens, lastRefill := capacity, now;
    }

    method TryConsume(amount: real, now: real) returns (ok: bool)
      modifies this
      ensures View() == Consume(old(View()), Poll(now, amount))
      ensures ok <==> Grants(old(View()), Poll(now, amount))
    {
      var elapsed := now - lastRefill;
      lastRefill := now;
      tokens := if capacity <= tokens + elapsed * rate then capacity else tokens + elapsed * rate;
      if tokens >= amount {
        tokens := tokens - amount;
        return true;
      }
      return false;
    }
  }
}
