/** Replies arrive: what makes a waiting call return, and with what. */
module RpcDelivery {
  import opened Rpc
  import opened RpcProofs
  import opened RpcTheorems
  import opened RpcClose

  // ------------------------------------------------------------------
  // What happens to a waiting call
  // ------------------------------------------------------------------

  /** The message was published for a request of call `c`. */
  predicate MeantFor(s: State, m: nat, c: nat) {
    && m < |s.published| && s.published[m].origin < |s.requests|
    && s.requests[s.published[m].origin].call == c
  }

  /** A trusted reply to `c` is delivered. */
  predicate Answers(s: State, l: Label, c: nat) {
    l.Deliver? && MeantFor(s, l.m, c) && s.published[l.m].kind.Reply? && s.published[l.m].trusted
  }

  /** An untrusted message for `c`, or a stream event that finds its buffer full, is delivered. */
  predicate Spoils(s: State, l: Label, c: nat)
    requires c < |s.calls|
  {
    l.Deliver? && MeantFor(s, l.m, c) &&
    (!s.published[l.m].trusted || (s.published[l.m].kind.StreamEvent? && l.full && !s.calls[c].stream.NoStream?))
  }

  /** The call's own misfortunes: its timeout, its cancellation, a failed publish, a stream that raises. */
  predicate Breaks(l: Label, c: nat) {
    || l == Timeout(c) || l == CancelCall(c) || l == CancelCleanup(c) || l == StreamRaises(c)
    || (l.PublishFail? && l.c == c)
  }

  /** Anything that can make a waiting call fail. */
  predicate Disturbs(s: State, l: Label, c: nat)
    requires c < |s.calls|
  {
    Breaks(l, c) || Spoils(s, l, c) || l == CloseClient(s.calls[c].client)
  }

  /** A message meant for a waiting call finds it under its correlation id. */
  lemma {:induction false} Routed(s: State, m: nat, c: nat)
    requires Inv(s) && c < |s.calls| && Hangs(s.calls[c]) && MeantFor(s, m, c)
    ensures var message := s.published[m];
            && message.client == s.calls[c].client < |s.clients|
            && message.corr in s.clients[message.client].waiters && s.clients[message.client].waiters[message.corr] == c
  {
    assert Listens(s, c);
  }

  /** A message meant for another call does not find it. */
  lemma {:induction false} NotRouted(s: State, m: nat, c: nat)
    requires Inv(s) && c < |s.calls| && m < |s.published| && s.published[m].client < |s.clients| && !MeantFor(s, m, c)
    requires s.published[m].corr in s.clients[s.published[m].client].waiters
    ensures s.clients[s.published[m].client].waiters[s.published[m].corr] != c
  {
    DeliveredToOwnCall(s, m);
  }

  lemma {:induction false} DeliverToWaiting(s: State, l: Label, c: nat)
    requires Inv(s) && Enabled(s, l) && l.Deliver? && c < |s.calls| && Hangs(s.calls[c])
    ensures c < |Apply(s, l).calls|
    ensures Answers(s, l, c) ==> Apply(s, l).calls[c] == s.calls[c].(fut := Result(s.published[l.m].body))
    ensures Spoils(s, l, c) ==> Apply(s, l).calls[c] == s.calls[c].(fut := Failed)
    ensures !Answers(s, l, c) && !Spoils(s, l, c) ==> Apply(s, l).calls[c] == s.calls[c]
  {
    var m := l.m;
    if MeantFor(s, m, c) {
      Routed(s, m, c);
    } else if s.published[m].corr in s.clients[s.published[m].client].waiters {
      NotRouted(s, m, c);
    }
  }

  /** Nothing else makes a waiting call do more than wait. */
  lemma {:induction false} KeepsWaiting(s: State, l: Label, c: nat)
    requires Inv(s) && Enabled(s, l) && !l.Deliver? && c < |s.calls| && Hangs(s.calls[c]) && !Disturbs(s, l, c)
    ensures c < |Apply(s, l).calls| && Hangs(Apply(s, l).calls[c])
  {
    if l.CloseClient? {
      OtherClose(s, l.k, c);
    } else if Finishes(s, l) {
      FinishForm(s, l);
    }
  }

  lemma {:induction false} OtherClose(s: State, k: nat, c: nat)
    requires Inv(s) && k < |s.clients| && c < |s.calls| && s.calls[c].client != k
    ensures Apply(s, CloseClient(k)).calls[c] == s.calls[c]
  {
    var waiters := s.clients[k].waiters;
    forall corr | corr in waiters ensures waiters[corr] != c {
      assert WaiterOk(s, k, corr, waiters[corr]);
    }
  }

  // ------------------------------------------------------------------
  // The first reply decides
  // ------------------------------------------------------------------

  /** The body of the first trusted reply that the run delivers to `c`. */
  function FirstReply(s: State, labels: seq<Label>, c: nat): Option<Body>
    decreases |labels|
  {
    if labels == [] || !Enabled(s, labels[0]) then None
    else if Answers(s, labels[0], c) then Some(s.published[labels[0].m].body)
    else FirstReply(Apply(s, labels[0]), labels[1..], c)
  }

  /** Until the first reply nothing disturbs the call; after it only its own misfortunes could. */
  predicate Undisturbed(s: State, labels: seq<Label>, c: nat)
    decreases |labels|
  {
    labels == [] || !Enabled(s, labels[0]) || c >= |s.calls| ||
    (!Breaks(labels[0], c) && (Hangs(s.calls[c]) ==> !Disturbs(s, labels[0], c)) && Undisturbed(Apply(s, labels[0]), labels[1..], c))
  }

  /** A call that is destined to return keeps that destiny, unless its own misfortunes strike. */
  lemma {:induction false} KeepsReply(s: State, l: Label, c: nat)
    requires Enabled(s, l) && c < |s.calls| && Released(s.calls[c]) && Destined(s.calls[c]).Returned? && !Breaks(l, c)
    ensures c < |Apply(s, l).calls| && Released(Apply(s, l).calls[c]) && Destined(Apply(s, l).calls[c]) == Destined(s.calls[c])
  {
    if Finishes(s, l) {
      FinishForm(s, l);
    }
  }

  lemma {:induction false} KeepsReplyRun(s: State, labels: seq<Label>, t: State, c: nat)
    requires Run(s, labels, t) && Undisturbed(s, labels, c)
    requires c < |s.calls| && Released(s.calls[c]) && Destined(s.calls[c]).Returned?
    ensures c < |t.calls| && Released(t.calls[c]) && Destined(t.calls[c]) == Destined(s.calls[c])
    decreases |labels|
  {
    if labels != [] {
      KeepsReply(s, labels[0], c);
      KeepsReplyRun(Apply(s, labels[0]), labels[1..], t, c);
    }
  }

  lemma {:induction false} WaitingRun(s: State, labels: seq<Label>, t: State, c: nat)
    requires Inv(s) && Run(s, labels, t) && Undisturbed(s, labels, c) && c < |s.calls| && Hangs(s.calls[c])
    ensures c < |t.calls|
    ensures FirstReply(s, labels, c).None? ==> Hangs(t.calls[c])
    ensures FirstReply(s, labels, c).Some? ==>
              Released(t.calls[c]) && Destined(t.calls[c]) == Returned(FirstReply(s, labels, c).value)
    decreases |labels|
  {
    if labels != [] {
      var l, next := labels[0], Apply(s, labels[0]);
      InvStep(s, l);
      if l.Deliver? {
        DeliverToWaiting(s, l, c);
      } else {
        KeepsWaiting(s, l, c);
      }
      if Answers(s, l, c) {
        KeepsReplyRun(next, labels[1..], t, c);
      } else {
        WaitingRun(next, labels[1..], t, c);
      }
    }
  }

  /** From any reachable state in which a call waits, over any run that does not disturb it: as long as no
      trusted reply to it is delivered it waits, and once one is, the first one decides. Then in every later
      state at most `Rank` of the call's own steps end it by returning exactly that body, and if it has
      ended already it has returned it. */
  lemma {:induction false} FirstReplyDecides(limits: seq<nat>, s: State, labels: seq<Label>, t: State, c: nat)
    returns (own: seq<Label>, u: State)
    requires Reachable(limits, s) && Run(s, labels, t) && Undisturbed(s, labels, c) && c < |s.calls|
    requires (s.calls[c].phase.Publishing? || s.calls[c].phase.Awaiting?) && s.calls[c].fut.Unset?
    ensures c < |t.calls|
    ensures FirstReply(s, labels, c).None? ==>
              (t.calls[c].phase.Publishing? || t.calls[c].phase.Awaiting?) && t.calls[c].fut.Unset?
    ensures FirstReply(s, labels, c).Some? ==>
              var body := FirstReply(s, labels, c).value;
              && Run(t, own, u) && AllOwn(own, c) && |own| <= Rank(t.calls[c])
              && c < |u.calls| && u.calls[c].phase == Ended(Returned(body))
              && (t.calls[c].phase.Ended? ==> t.calls[c].phase == Ended(Returned(body)))
  {
    InvReachable(limits, s);
    WaitingRun(s, labels, t, c);
    own, u := [], t;
    if FirstReply(s, labels, c).Some? {
      InvRun(s, labels, t);
      own, u := EndAlone(t, c);
    }
  }

  /** Delivering a trusted reply published for a waiting call leads, by at most `Rank` of its own steps, to
      that call having returned its body. */
  lemma {:induction false} DeliveredReplyReturns(limits: seq<nat>, s: State, m: nat, full: bool, c: nat)
    returns (own: seq<Label>, u: State)
    requires Reachable(limits, s) && c < |s.calls| && MeantFor(s, m, c)
    requires (s.calls[c].phase.Publishing? || s.calls[c].phase.Awaiting?) && s.calls[c].fut.Unset?
    requires s.published[m].kind.Reply? && s.published[m].trusted
    ensures Enabled(s, Deliver(m, full)) && Run(Apply(s, Deliver(m, full)), own, u)
    ensures AllOwn(own, c) && |own| <= Rank(s.calls[c])
    ensures c < |u.calls| && u.calls[c].phase == Ended(Returned(s.published[m].body))
  {
    InvReachable(limits, s);
    Routed(s, m, c);
    DeliverToWaiting(s, Deliver(m, full), c);
    ClientsStep(s, Deliver(m, full));
    own, u := EndAlone(Apply(s, Deliver(m, full)), c);
  }

  /** And whatever disturbs a waiting call makes it raise: its own steps, at most `Rank` of them, end it
      without a payload. */
  lemma {:induction false} DisturbedCallRaises(limits: seq<nat>, s: State, l: Label, c: nat)
    returns (own: seq<Label>, u: State)
    requires Reachable(limits, s) && c < |s.calls| && Enabled(s, l) && Disturbs(s, l, c)
    requires (s.calls[c].phase.Publishing? || s.calls[c].phase.Awaiting?) && s.calls[c].fut.Unset?
    ensures Run(Apply(s, l), own, u) && AllOwn(own, c) && |own| <= Rank(s.calls[c])
    ensures c < |u.calls| && u.calls[c].phase == Ended(Raised)
  {
    InvReachable(limits, s);
    InvStep(s, l);
    DisturbedStep(s, l, c);
    own, u := EndAlone(Apply(s, l), c);
  }

  lemma {:induction false} DisturbedStep(s: State, l: Label, c: nat)
    requires Inv(s) && c < |s.calls| && Hangs(s.calls[c]) && Enabled(s, l) && Disturbs(s, l, c)
    ensures c < |Apply(s, l).calls| && Released(Apply(s, l).calls[c]) && Destined(Apply(s, l).calls[c]) == Raised
    ensures Rank(Apply(s, l).calls[c]) <= Rank(s.calls[c])
  {
    if l.Deliver? {
      DeliverToWaiting(s, l, c);
    } else if l.CloseClient? {
      ClosedStep(s, l.k, c);
    } else {
      BrokenStep(s, l, c);
    }
  }

  lemma {:induction false} ClosedStep(s: State, k: nat, c: nat)
    requires Inv(s) && c < |s.calls| && Hangs(s.calls[c]) && k == s.calls[c].client && k < |s.clients|
    ensures var t := Apply(s, CloseClient(k));
            c < |t.calls| && Released(t.calls[c]) && Destined(t.calls[c]) == Raised && Rank(t.calls[c]) <= Rank(s.calls[c])
  {
    CloseReleases(s, k, c);
  }

  lemma {:induction false} BrokenStep(s: State, l: Label, c: nat)
    requires c < |s.calls| && Hangs(s.calls[c]) && Enabled(s, l) && Breaks(l, c)
    ensures c < |Apply(s, l).calls| && Released(Apply(s, l).calls[c]) && Destined(Apply(s, l).calls[c]) == Raised
    ensures Rank(Apply(s, l).calls[c]) <= Rank(s.calls[c])
  {
    FinishForm(s, l);
  }

  // ------------------------------------------------------------------
  // A whole round trip
  // ------------------------------------------------------------------

  lemma {:induction false} FreshCorr(calls: seq<Call>) returns (corr: nat)
    ensures forall d :: 0 <= d < |calls| ==> calls[d].corr.Some? ==> calls[d].corr.value < corr
  {
    if calls == [] {
      corr := 0;
    } else {
      var rest := FreshCorr(calls[..|calls| - 1]);
      var last := calls[|calls| - 1].corr;
      corr := if last.Some? && last.value >= rest then last.value + 1 else rest;
      forall d | 0 <= d < |calls| ensures calls[d].corr.Some? ==> calls[d].corr.value < corr {
        if d < |calls| - 1 {
          assert calls[..|calls| - 1][d] == calls[d];
        }
      }
    }
  }

  lemma {:induction false} Extend(s: State, labels: seq<Label>, t: State, l: Label)
    requires Run(s, labels, t) && Enabled(t, l)
    ensures Run(s, labels + [l], Apply(t, l))
  {
    assert Run(Apply(t, l), [], Apply(t, l)) && [l][1..] == [];
    RunJoin(s, labels, t, [l], Apply(t, l));
  }

  /** Call `c` in this phase, nothing set, its client open. */
  predicate Standing(s: State, c: nat, phase: Phase) {
    In(s, c) && s.calls[c].phase == phase && s.calls[c].fut.Unset? && !ClientOf(s, c).closed
  }

  /** A call with a permit can come to the point where it may register. */
  lemma {:induction false} MayRegister(s: State, c: nat) returns (labels: seq<Label>, t: State)
    requires Standing(s, c, Holding)
    ensures Run(s, labels, t) && In(t, c)
    ensures t.calls[c].phase.Connecting? || (t.calls[c].phase.Holding? && !ClientOf(t, c).closed && ClientOf(t, c).connected)
  {
    labels, t := [], s;
    if !ClientOf(s, c).connected {
      var locking := Apply(s, WaitLock(c));
      assert Standing(locking, c, Locking);
      t := Apply(locking, Connect(c));
      Extend(s, [], s, WaitLock(c));
      Extend(s, [] + [WaitLock(c)], locking, Connect(c));
      labels := [] + [WaitLock(c)] + [Connect(c)];
    }
  }

  /** A queued call of an open client with a free permit can get its request out. */
  lemma {:induction false} GetsOut(s: State, c: nat) returns (labels: seq<Label>, t: State)
    requires In(s, c) && s.calls[c].phase.Queued? && s.calls[c].fut.Unset? && !ClientOf(s, c).closed && ClientOf(s, c).free > 0
    ensures Run(s, labels, t) && c < |t.calls| && t.calls[c].phase.Awaiting? && t.calls[c].fut.Unset?
    ensures |t.requests| > 0 && t.requests[|t.requests| - 1].call == c
  {
    var s1 := Apply(s, Acquire(c));
    assert Standing(s1, c, Holding);
    var more, s2 := MayRegister(s1, c);
    RunCons(s, Acquire(c), more, s2);
    var corr := FreshCorr(s2.calls);
    var s3 := Apply(s2, Register(c, corr));
    Extend(s, [Acquire(c)] + more, s2, Register(c, corr));
    t := Apply(s3, Publish(c));
    Extend(s, [Acquire(c)] + more + [Register(c, corr)], s3, Publish(c));
    labels := [Acquire(c)] + more + [Register(c, corr)] + [Publish(c)];
  }

  lemma {:induction false} ReachableAfter(limits: seq<nat>, s: State, labels: seq<Label>, t: State)
    requires Reachable(limits, s) && Run(s, labels, t)
    ensures Reachable(limits, t)
  {
    var early :| Run(Init(limits), early, s);
    RunJoin(Init(limits), early, s, labels, t);
  }

  /** The request is served and the reply published for it. */
  lemma {:induction false} GetsServed(s: State, c: nat, body: Body) returns (t: State)
    requires |s.requests| > 0 && s.requests[|s.requests| - 1].call == c
    ensures Enabled(s, Serve(|s.requests| - 1, Reply, true, body)) && t == Apply(s, Serve(|s.requests| - 1, Reply, true, body))
    ensures t.calls == s.calls && t.published != [] && MeantFor(t, |t.published| - 1, c)
    ensures var m := t.published[|t.published| - 1]; m.kind.Reply? && m.trusted && m.body == body
  {
    t := Apply(s, Serve(|s.requests| - 1, Reply, true, body));
  }

  /** From every reachable state and for every body: a queued call of an open client with a free permit can
      acquire, connect, register, publish, be served with that body and return exactly it. */
  lemma {:induction false} RoundTrip(limits: seq<nat>, s: State, c: nat, body: Body) returns (labels: seq<Label>, u: State)
    requires Reachable(limits, s) && In(s, c) && s.calls[c].phase.Queued? && s.calls[c].fut.Unset?
    requires !ClientOf(s, c).closed && ClientOf(s, c).free > 0
    ensures Run(s, labels, u) && c < |u.calls| && u.calls[c].phase == Ended(Returned(body))
  {
    var out, s1 := GetsOut(s, c);
    var serve := Serve(|s1.requests| - 1, Reply, true, body);
    var s2 := GetsServed(s1, c, body);
    Extend(s, out, s1, serve);
    ReachableAfter(limits, s, out + [serve], s2);
    var m := |s2.published| - 1;
    var own, end := DeliveredReplyReturns(limits, s2, m, false, c);
    RunCons(s2, Deliver(m, false), own, end);
    RunJoin(s, out + [serve], s2, [Deliver(m, false)] + own, end);
    labels, u := out + [serve] + ([Deliver(m, false)] + own), end;
  }

  // ------------------------------------------------------------------
  // Streams
  // ------------------------------------------------------------------

  /** The call wanted a stream and has not got past waiting for it, unless it is failing. */
  predicate NotDrained(call: Call) {
    && !call.stream.NoStream?
    && (call.phase.CleaningUp? ==> call.phase.out == Raised)
    && (call.phase.Ended? ==> call.phase.out == Raised)
  }

  lemma {:induction false} NotDrainedStep(s: State, l: Label, c: nat)
    requires Enabled(s, l) && c < |s.calls| && NotDrained(s.calls[c]) && l != Drained(c)
    ensures c < |Apply(s, l).calls| && NotDrained(Apply(s, l).calls[c])
  {
    if Finishes(s, l) {
      FinishForm(s, l);
    }
  }

  /** A call with a stream returns its reply only after it has waited for the stream: from any state in which
      it has not, no run without its `Drained` step makes it return. */
  lemma {:induction false} StreamIsDrainedFirst(s: State, labels: seq<Label>, t: State, c: nat)
    requires Run(s, labels, t) && c < |s.calls| && NotDrained(s.calls[c]) && Drained(c) !in labels
    ensures c < |t.calls| && (t.calls[c].phase.Ended? ==> t.calls[c].phase.out == Raised)
    decreases |labels|
  {
    if labels != [] {
      assert labels == [labels[0]] + labels[1..];
      NotDrainedStep(s, labels[0], c);
      StreamIsDrainedFirst(Apply(s, labels[0]), labels[1..], t, c);
    }
  }

  // ------------------------------------------------------------------
  // Open and connected
  // ------------------------------------------------------------------

  /** Whether client `k` is closed after these steps: the last close or reopening decides. */
  function ClosedAfter(labels: seq<Label>, k: nat, before: bool): bool
    decreases |labels|
  {
    if labels == [] then before
    else ClosedAfter(labels[1..], k, if labels[0] == CloseClient(k) then true else if labels[0] == Reopen(k) then false else before)
  }

  lemma {:induction false} ClosedOne(s: State, l: Label, k: nat)
    requires Enabled(s, l) && k < |s.clients|
    ensures k < |Apply(s, l).clients|
    ensures Apply(s, l).clients[k].closed ==
            if l == CloseClient(k) then true else if l == Reopen(k) then false else s.clients[k].closed
  {
  }

  /** A client is closed exactly from a `close` to the next `connect`, and then refuses calls before they
      connect. */
  lemma {:induction false} ClosedExactly(s: State, labels: seq<Label>, t: State, k: nat, c: nat)
    requires Run(s, labels, t) && k < |s.clients|
    ensures k < |t.clients| && t.clients[k].closed == ClosedAfter(labels, k, s.clients[k].closed)
    ensures In(t, c) && t.calls[c].client == k && t.calls[c].phase.Holding? ==> (Enabled(t, Refuse(c)) <==> t.clients[k].closed)
    decreases |labels|
  {
    if labels != [] {
      ClosedOne(s, labels[0], k);
      ClosedExactly(Apply(s, labels[0]), labels[1..], t, k, c);
    }
  }

  lemma {:induction false} ConnectedRun(s: State, labels: seq<Label>, t: State, k: nat)
    requires Run(s, labels, t) && k < |s.clients| && s.clients[k].connected && Disconnect(k) !in labels
    ensures k < |t.clients| && t.clients[k].connected
    decreases |labels|
  {
    if labels != [] {
      assert labels == [labels[0]] + labels[1..];
      ConnectedStep(s, labels[0], k);
      ConnectedRun(Apply(s, labels[0]), labels[1..], t, k);
    }
  }

  /** Whether client `k` is connected after these steps: the last registration of one of its calls, or the last
      disconnection, decides. */
  function ConnectedAfter(s: State, labels: seq<Label>, k: nat, before: bool): bool
    decreases |labels|
  {
    if labels == [] || !Enabled(s, labels[0]) then before
    else ConnectedAfter(Apply(s, labels[0]), labels[1..], k, ConnectedNext(s, labels[0], k, before))
  }

  function ConnectedNext(s: State, l: Label, k: nat, before: bool): bool
    requires Enabled(s, l)
  {
    if l.Register? && s.calls[l.c].client == k then true else if l == Disconnect(k) then false else before
  }

  lemma {:induction false} ConnectedStep(s: State, l: Label, k: nat)
    requires Enabled(s, l) && k < |s.clients|
    ensures k < |Apply(s, l).clients| && Apply(s, l).clients[k].connected == ConnectedNext(s, l, k, s.clients[k].connected)
  {
  }

  /** A client is connected exactly from a registration of one of its calls to the next disconnection; only a
      disconnected one makes its calls take the resource lock. */
  lemma {:induction false} ConnectedExactly(s: State, labels: seq<Label>, t: State, k: nat, c: nat)
    requires Run(s, labels, t) && k < |s.clients|
    ensures k < |t.clients| && t.clients[k].connected == ConnectedAfter(s, labels, k, s.clients[k].connected)
    ensures In(t, c) && t.calls[c].client == k && t.calls[c].phase.Holding? && !t.clients[k].closed ==>
              (Enabled(t, WaitLock(c)) <==> !t.clients[k].connected)
    decreases |labels|
  {
    if labels != [] {
      ConnectedStep(s, labels[0], k);
      ConnectedExactly(Apply(s, labels[0]), labels[1..], t, k, c);
    }
  }

  /** The topology is created once: after a call has registered, and until the client is disconnected, every
      other call with a permit of the open client can register at once, without the resource lock. */
  lemma {:induction false} TopologyIsReused(s: State, c: nat, corr: nat, labels: seq<Label>, t: State, d: nat, other: nat)
    requires Enabled(s, Register(c, corr)) && Run(Apply(s, Register(c, corr)), labels, t)
    requires Disconnect(s.calls[c].client) !in labels
    requires In(t, d) && t.calls[d].client == s.calls[c].client && t.calls[d].phase.Holding? && !ClientOf(t, d).closed
    requires forall e :: 0 <= e < |t.calls| ==> t.calls[e].corr != Some(other)
    ensures Enabled(t, Register(d, other)) && !Enabled(t, WaitLock(d))
  {
    ConnectedRun(Apply(s, Register(c, corr)), labels, t, s.calls[c].client);
  }
}
