/** The promises of the RPC client over every interleaving of calls, servers, timeouts,
    reorderings, duplicate deliveries and closes. */
module RpcTheorems {
  import opened Rpc
  import opened RpcProofs

  // ------------------------------------------------------------------
  // Replies
  // ------------------------------------------------------------------

  /** A call that returns a payload returns a trusted reply that a server published while
      dispatching this very call's request. */
  lemma {:induction false} ReplyIsOwn(limits: seq<nat>, s: State, c: nat)
    requires Reachable(limits, s) && c < |s.calls|
    requires s.calls[c].phase.Ended? && s.calls[c].phase.out.Returned?
    ensures Answered(s, c, s.calls[c].phase.out.body)
  {
    InvReachable(limits, s);
    assert CallAnswered(s, c);
  }

  /** Once a call has ended nothing changes its outcome: late and duplicate replies are dropped. */
  lemma {:induction false} EndedStays(s: State, labels: seq<Label>, t: State, c: nat)
    requires Run(s, labels, t) && c < |s.calls| && s.calls[c].phase.Ended?
    ensures c < |t.calls| && t.calls[c].phase == s.calls[c].phase
    decreases |labels|
  {
    if labels != [] {
      EndedStep(s, labels[0], c);
      EndedStays(Apply(s, labels[0]), labels[1..], t, c);
    }
  }

  lemma {:induction false} EndedStep(s: State, l: Label, c: nat)
    requires Enabled(s, l) && c < |s.calls| && s.calls[c].phase.Ended?
    ensures c < |Apply(s, l).calls| && Apply(s, l).calls[c].phase == s.calls[c].phase
  {
  }

  // ------------------------------------------------------------------
  // Waiters and permits
  // ------------------------------------------------------------------

  /** An injective dictionary has as many entries as values. */
  lemma {:induction false} Injected(m: map<nat, nat>, into: set<nat>)
    requires forall a, b :: a in m && b in m && a != b ==> m[a] != m[b]
    requires forall a :: a in m ==> m[a] in into
    ensures |m| <= |into|
    decreases m
  {
    if m != map[] {
      var a :| a in m;
      var rest := m - {a};
      assert m.Keys == rest.Keys + {a};
      Injected(rest, into - {m[a]});
    }
  }

  lemma {:induction false} LimitsKept(s: State, labels: seq<Label>, t: State)
    requires Run(s, labels, t)
    ensures |t.clients| == |s.clients| && forall k :: 0 <= k < |s.clients| ==> t.clients[k].limit == s.clients[k].limit
    decreases |labels|
  {
    if labels != [] {
      LimitStep(s, labels[0]);
      LimitsKept(Apply(s, labels[0]), labels[1..], t);
    }
  }

  lemma {:induction false} LimitStep(s: State, l: Label)
    requires Enabled(s, l)
    ensures |Apply(s, l).clients| == |s.clients|
    ensures forall k :: 0 <= k < |s.clients| ==> Apply(s, l).clients[k].limit == s.clients[k].limit
  {
  }

  lemma {:induction false} WaitersInHolders(s: State, k: nat)
    requires WaitersOk(s) && k < |s.clients|
    ensures |s.clients[k].waiters| <= |Holders(s.calls, k)|
  {
    var m := s.clients[k].waiters;
    forall a | a in m ensures WaiterOk(s, k, a, m[a]) && m[a] in Holders(s.calls, k) {
    }
    Injected(m, Holders(s.calls, k));
  }

  /** No waiter outlives its call, registered waiters never exceed `max(1, max_inflight)`, and every
      permit is free, held by exactly one unfinished call, or lost to a cancelled cleanup. */
  lemma {:induction false} WaitersAndPermits(limits: seq<nat>, s: State, k: nat)
    requires Reachable(limits, s) && k < |limits|
    ensures |s.clients| == |limits|
    ensures forall corr :: corr in s.clients[k].waiters ==>
              WaiterOk(s, k, corr, s.clients[k].waiters[corr])
    ensures |s.clients[k].waiters| <= Max(1, limits[k])
    ensures s.clients[k].free >= 0
    ensures s.clients[k].free + |Holders(s.calls, k)| + s.clients[k].leaked == Max(1, limits[k])
  {
    InvReachable(limits, s);
    var labels :| Run(Init(limits), labels, s);
    LimitsKept(Init(limits), labels, s);
    WaitersInHolders(s, k);
  }

  /** How many calls of client `k` were cancelled again while their `finally` block awaited. */
  function Interrupted(s: State, labels: seq<Label>, k: nat): nat
    decreases |labels|
  {
    if labels == [] || !Enabled(s, labels[0]) then 0
    else (if labels[0].CancelCleanup? && s.calls[labels[0].c].client == k then 1 else 0)
         + Interrupted(Apply(s, labels[0]), labels[1..], k)
  }

  lemma {:induction false} LeakStep(s: State, l: Label, k: nat)
    requires Enabled(s, l) && k < |s.clients|
    ensures |Apply(s, l).clients| == |s.clients|
    ensures Apply(s, l).clients[k].leaked ==
            s.clients[k].leaked + if l.CancelCleanup? && s.calls[l.c].client == k then 1 else 0
  {
  }

  lemma {:induction false} LeakRun(s: State, labels: seq<Label>, t: State, k: nat)
    requires Run(s, labels, t) && k < |s.clients|
    ensures |t.clients| == |s.clients| && t.clients[k].leaked == s.clients[k].leaked + Interrupted(s, labels, k)
    decreases |labels|
  {
    if labels != [] {
      LeakStep(s, labels[0], k);
      LeakRun(Apply(s, labels[0]), labels[1..], t, k);
    }
  }

  /** `release` is skipped exactly when a caller is cancelled a second time during cleanup: once all
      calls of a client have ended, all its permits are back if and only if that never happened. */
  lemma {:induction false} PermitsReturnExactly(limits: seq<nat>, labels: seq<Label>, s: State, k: nat)
    requires Run(Init(limits), labels, s) && k < |limits| && Holders(s.calls, k) == {}
    ensures |s.clients| == |limits|
    ensures s.clients[k].free == Max(1, limits[k]) <==> Interrupted(Init(limits), labels, k) == 0
  {
    WaitersAndPermits(limits, s, k);
    LeakRun(Init(limits), labels, s, k);
  }

  /** A client whose permits have all leaked never starts another call. */
  lemma {:induction false} LeakedClientStalls(s: State, labels: seq<Label>, t: State, k: nat)
    requires Inv(s) && k < |s.clients| && s.clients[k].leaked == s.clients[k].limit && Run(s, labels, t)
    ensures k < |t.clients| && t.clients[k].free == 0
    ensures forall c: nat :: Enabled(t, Acquire(c)) ==> t.calls[c].client != k
  {
    InvRun(s, labels, t);
    LeakRun(s, labels, t, k);
    LimitsKept(s, labels, t);
    assert s.clients[k].free + s.clients[k].leaked + |Holders(s.calls, k)| == s.clients[k].limit;
    assert t.clients[k].free + t.clients[k].leaked + |Holders(t.calls, k)| == t.clients[k].limit;
  }

  lemma {:induction false} RunCons(s: State, l: Label, rest: seq<Label>, t: State)
    requires Enabled(s, l) && Run(Apply(s, l), rest, t)
    ensures Run(s, [l] + rest, t)
  {
    assert ([l] + rest)[1..] == rest;
  }

  /** One call with nothing set, in the given phase. */
  predicate Single(s: State, limits: seq<nat>, k: nat, phase: Phase, closed: bool) {
    && |s.clients| == |limits| && k < |limits|
    && s.calls == [Call(k, None, phase, Unset, Wanted)] && s.requests == [] && s.published == []
    && s.clients[k] == Client(Max(1, limits[k]), if phase.Queued? then Max(1, limits[k]) else Max(1, limits[k]) - 1,
                              0, closed, false, map[])
  }

  /** Every client can be brought to the point where one streaming call is connecting. */
  lemma {:induction false} ReachConnecting(limits: seq<nat>, k: nat) returns (labels: seq<Label>, s: State)
    requires k < |limits|
    ensures Run(Init(limits), labels, s) && Single(s, limits, k, Connecting, false)
  {
    var s1 := Apply(Init(limits), Begin(k, true));
    assert Single(s1, limits, k, Queued, false);
    var s2 := Apply(s1, Acquire(0));
    assert Single(s2, limits, k, Holding, false);
    var s3 := Apply(s2, WaitLock(0));
    assert Single(s3, limits, k, Locking, false);
    s := Apply(s3, Connect(0));
    RunCons(s3, Connect(0), [], s);
    RunCons(s2, WaitLock(0), [Connect(0)] + [], s);
    RunCons(s1, Acquire(0), [WaitLock(0)] + ([Connect(0)] + []), s);
    RunCons(Init(limits), Begin(k, true), [Acquire(0)] + ([WaitLock(0)] + ([Connect(0)] + [])), s);
    labels := [Begin(k, true)] + ([Acquire(0)] + ([WaitLock(0)] + ([Connect(0)] + [])));
  }

  lemma {:induction false} RunJoin(s: State, a: seq<Label>, t: State, b: seq<Label>, u: State)
    requires Run(s, a, t) && Run(t, b, u)
    ensures Run(s, a + b, u)
    decreases |a|
  {
    if a == [] {
      assert a + b == b;
    } else {
      assert (a + b)[1..] == a[1..] + b;
      RunJoin(Apply(s, a[0]), a[1..], t, b, u);
    }
  }

  /** The loss happens: for every client there is a run whose only call times out with its stream task
      still running and is cancelled again during cleanup, after which no call is left and one permit
      is missing. */
  lemma {:induction false} CancelledCleanupLeaks(limits: seq<nat>, k: nat) returns (labels: seq<Label>, s: State)
    requires k < |limits|
    ensures Run(Init(limits), labels, s) && Holders(s.calls, k) == {} && k < |s.clients|
    ensures Interrupted(Init(limits), labels, k) == 1 && s.clients[k].free == Max(1, limits[k]) - 1
  {
    var early, s0 := ReachConnecting(limits, k);
    var s1 := Apply(s0, Register(0, 0));
    assert s1.calls == [Call(k, Some(0), Publishing, Unset, Streaming)];
    var s2 := Apply(s1, Publish(0));
    assert s2.calls == [Call(k, Some(0), Awaiting, Unset, Streaming)];
    var s3 := Apply(s2, Timeout(0));
    assert s3.calls == [Call(k, Some(0), CleaningUp(Raised), Abandoned, Streaming)];
    s := Apply(s3, CancelCleanup(0));
    RunCons(s3, CancelCleanup(0), [], s);
    RunCons(s2, Timeout(0), [CancelCleanup(0)] + [], s);
    RunCons(s1, Publish(0), [Timeout(0)] + ([CancelCleanup(0)] + []), s);
    RunCons(s0, Register(0, 0), [Publish(0)] + ([Timeout(0)] + ([CancelCleanup(0)] + [])), s);
    var late := [Register(0, 0)] + ([Publish(0)] + ([Timeout(0)] + ([CancelCleanup(0)] + [])));
    RunJoin(Init(limits), early, s0, late, s);
    labels := early + late;
    LeakRun(Init(limits), labels, s, k);
  }
}
