/** What every run of the RPC protocol keeps, and what that means for callers. */
module RpcProofs {
  import opened Rpc

  // ------------------------------------------------------------------
  // Permits
  // ------------------------------------------------------------------

  lemma {:induction false} HoldersUpdate(calls: seq<Call>, c: nat, call: Call, k: nat)
    requires c < |calls| && call.client == calls[c].client
    ensures |Holders(calls[c := call], k)| ==
            |Holders(calls, k)|
            - (if calls[c].client == k && Holds(calls[c].phase) then 1 else 0)
            + (if call.client == k && Holds(call.phase) then 1 else 0)
  {
    var before, after := Holders(calls, k), Holders(calls[c := call], k);
    assert before - {c} == after - {c};
    assert |before| == |before - {c}| + if c in before then 1 else 0;
    assert |after| == |after - {c}| + if c in after then 1 else 0;
  }

  lemma {:induction false} HoldersSame(calls: seq<Call>, calls': seq<Call>, k: nat)
    requires |calls| <= |calls'|
    requires forall c :: 0 <= c < |calls| ==>
               calls'[c].client == calls[c].client && Holds(calls'[c].phase) == Holds(calls[c].phase)
    requires forall c :: |calls| <= c < |calls'| ==> !Holds(calls'[c].phase)
    ensures Holders(calls', k) == Holders(calls, k)
  {
  }

  /** A step of one call that changes its phase and its client's permits accordingly. */
  lemma {:induction false} PermitsCall(s: State, s': State, c: nat)
    requires ClientsOk(s) && PermitsOk(s) && c < |s.calls|
    requires |s'.calls| == |s.calls| && s'.calls == s.calls[c := s'.calls[c]] && s'.calls[c].client == s.calls[c].client
    requires |s'.clients| == |s.clients|
    requires forall k :: 0 <= k < |s.clients| ==>
               && s'.clients[k].limit == s.clients[k].limit
               && s'.clients[k].free >= 0
               && s'.clients[k].free + s'.clients[k].leaked ==
                  s.clients[k].free + s.clients[k].leaked
                  + (if k == s.calls[c].client && Holds(s.calls[c].phase) then 1 else 0)
                  - (if k == s.calls[c].client && Holds(s'.calls[c].phase) then 1 else 0)
    ensures PermitsOk(s')
  {
    forall k | 0 <= k < |s'.clients|
      ensures s'.clients[k].free + s'.clients[k].leaked + |Holders(s'.calls, k)| == s'.clients[k].limit
    {
      HoldersUpdate(s.calls, c, s'.calls[c], k);
    }
  }

  lemma {:induction false} PermitsOther(s: State, s': State)
    requires PermitsOk(s) && |s'.clients| == |s.clients| && |s.calls| <= |s'.calls|
    requires forall k :: 0 <= k < |s.clients| ==>
               && s'.clients[k].limit == s.clients[k].limit
               && s'.clients[k].free == s.clients[k].free
               && s'.clients[k].leaked == s.clients[k].leaked
    requires forall c :: 0 <= c < |s.calls| ==>
               s'.calls[c].client == s.calls[c].client && Holds(s'.calls[c].phase) == Holds(s.calls[c].phase)
    requires forall c :: |s.calls| <= c < |s'.calls| ==> !Holds(s'.calls[c].phase)
    ensures PermitsOk(s')
  {
    forall k | 0 <= k < |s'.clients|
      ensures s'.clients[k].free + s'.clients[k].leaked + |Holders(s'.calls, k)| == s'.clients[k].limit
    {
      HoldersSame(s.calls, s'.calls, k);
    }
  }

  lemma {:induction false} PermitsFinish(s: State, c: nat, out: Outcome)
    requires ClientsOk(s) && PermitsOk(s) && In(s, c) && Holds(s.calls[c].phase)
    ensures PermitsOk(Finish(s, c, out))
  {
    PermitsCall(s, Finish(s, c, out), c);
  }

  predicate Finishes(s: State, l: Label)
    requires Enabled(s, l)
  {
    match l
    case Refuse(_) => true
    case ConnectFail(_) => true
    case PublishFail(_, _) => true
    case Timeout(_) => true
    case Wake(c) => !s.calls[c].fut.Result? || s.calls[c].stream.NoStream?
    case Drained(_) => true
    case StreamRaises(_) => true
    case CancelCall(c) => !s.calls[c].phase.Queued?
    case _ => false
  }

  /** The state on which such a step runs the `finally` block, and the outcome it has then. */
  function BeforeFinish(s: State, l: Label): State
    requires Enabled(s, l) && Finishes(s, l)
  {
    match l
    case PublishFail(c, sent) => if sent then Send(s, c) else s
    case Drained(c) => SetCall(s, c, s.calls[c].(stream := StreamDone))
    case StreamRaises(c) => SetCall(s, c, s.calls[c].(stream := StreamDone))
    case _ => s
  }

  function FinishOutcome(s: State, l: Label): Outcome
    requires Enabled(s, l) && Finishes(s, l)
  {
    match l
    case Wake(c) => if s.calls[c].fut.Result? then Returned(s.calls[c].fut.body) else Raised
    case Drained(c) => Returned(s.calls[c].phase.reply)
    case _ => Raised
  }

  lemma {:induction false} FinishForm(s: State, l: Label)
    requires Enabled(s, l) && Finishes(s, l)
    ensures In(BeforeFinish(s, l), l.c) && Apply(s, l) == Finish(BeforeFinish(s, l), l.c, FinishOutcome(s, l))
    ensures Holds(s.calls[l.c].phase) && BeforeFinish(s, l).calls[l.c].phase == s.calls[l.c].phase
  {
  }

  lemma {:induction false} PermitsBefore(s: State, l: Label)
    requires ClientsOk(s) && PermitsOk(s) && Enabled(s, l) && Finishes(s, l)
    ensures ClientsOk(BeforeFinish(s, l)) && PermitsOk(BeforeFinish(s, l))
  {
    PermitsOther(s, BeforeFinish(s, l));
  }

  lemma {:induction false} PermitsTaken(s: State, l: Label)
    requires ClientsOk(s) && PermitsOk(s) && Enabled(s, l) && (l.Acquire? || l.CleanedUp? || l.CancelCleanup?)
    ensures PermitsOk(Apply(s, l))
  {
    PermitsCall(s, Apply(s, l), l.c);
  }

  lemma {:induction false} PermitsKept(s: State, l: Label)
    requires PermitsOk(s) && Enabled(s, l) && !Finishes(s, l) && !l.Acquire? && !l.CleanedUp? && !l.CancelCleanup?
    ensures PermitsOk(Apply(s, l))
  {
    PermitsOther(s, Apply(s, l));
  }

  lemma {:induction false} PermitsMove(s: State, l: Label)
    requires ClientsOk(s) && PermitsOk(s) && Enabled(s, l) && !Finishes(s, l)
    ensures PermitsOk(Apply(s, l))
  {
    if l.Acquire? || l.CleanedUp? || l.CancelCleanup? {
      PermitsTaken(s, l);
    } else {
      PermitsKept(s, l);
    }
  }

  lemma {:induction false} PermitsStep(s: State, l: Label)
    requires ClientsOk(s) && PermitsOk(s) && Enabled(s, l)
    ensures PermitsOk(Apply(s, l))
  {
    if Finishes(s, l) {
      FinishForm(s, l);
      PermitsBefore(s, l);
      PermitsFinish(BeforeFinish(s, l), l.c, FinishOutcome(s, l));
    } else {
      PermitsMove(s, l);
    }
  }

  lemma {:induction false} ClientsFinish(s: State, l: Label)
    requires ClientsOk(s) && Enabled(s, l) && Finishes(s, l)
    ensures ClientsOk(Apply(s, l)) && |Apply(s, l).clients| == |s.clients| && |s.calls| <= |Apply(s, l).calls|
  {
    FinishForm(s, l);
  }

  lemma {:induction false} ClientsOther(s: State, l: Label)
    requires ClientsOk(s) && Enabled(s, l) && !Finishes(s, l)
    ensures ClientsOk(Apply(s, l)) && |Apply(s, l).clients| == |s.clients| && |s.calls| <= |Apply(s, l).calls|
  {
  }

  lemma {:induction false} ClientsStep(s: State, l: Label)
    requires ClientsOk(s) && Enabled(s, l)
    ensures ClientsOk(Apply(s, l))
    ensures |Apply(s, l).clients| == |s.clients| && |s.calls| <= |Apply(s, l).calls|
  {
    if Finishes(s, l) {
      ClientsFinish(s, l);
    } else {
      ClientsOther(s, l);
    }
  }

  lemma {:induction false} CorrKept(s: State, l: Label, c: nat)
    requires CorrOk(s) && Enabled(s, l) && c < |s.calls|
    ensures c < |Apply(s, l).calls|
    ensures Apply(s, l).calls[c].corr == if l.Register? && l.c == c then Some(l.corr) else s.calls[c].corr
  {
    if Finishes(s, l) {
      FinishForm(s, l);
    }
  }

  lemma {:induction false} CorrUnique(s: State, l: Label)
    requires CorrOk(s) && Enabled(s, l)
    ensures var t := Apply(s, l);
            forall c, d :: 0 <= c < d < |t.calls| && t.calls[c].corr.Some? ==> t.calls[c].corr != t.calls[d].corr
  {
    var t := Apply(s, l);
    forall c, d | 0 <= c < d < |t.calls| && t.calls[c].corr.Some? ensures t.calls[c].corr != t.calls[d].corr {
      if d < |s.calls| {
        CorrKept(s, l, c);
        CorrKept(s, l, d);
      }
    }
  }

  lemma {:induction false} CorrFinish(s: State, c: nat, out: Outcome, d: nat)
    requires In(s, c) && d < |s.calls| && CallCorr(s.calls[d])
    ensures CallCorr(Finish(s, c, out).calls[d])
  {
  }

  lemma {:induction false} CorrMove(s: State, l: Label, d: nat)
    requires Enabled(s, l) && !Finishes(s, l) && d < |s.calls| && CallCorr(s.calls[d])
    ensures d < |Apply(s, l).calls| && CallCorr(Apply(s, l).calls[d])
  {
  }

  lemma {:induction false} CorrOne(s: State, l: Label, d: nat)
    requires Enabled(s, l) && d < |s.calls| && CallCorr(s.calls[d])
    ensures d < |Apply(s, l).calls| && CallCorr(Apply(s, l).calls[d])
  {
    if Finishes(s, l) {
      FinishForm(s, l);
      CorrFinish(BeforeFinish(s, l), l.c, FinishOutcome(s, l), d);
    } else {
      CorrMove(s, l, d);
    }
  }

  lemma {:induction false} CorrNew(s: State, l: Label, d: nat)
    requires Enabled(s, l) && |s.calls| <= d < |Apply(s, l).calls|
    ensures CallCorr(Apply(s, l).calls[d])
  {
  }

  lemma {:induction false} CorrStep(s: State, l: Label)
    requires CorrOk(s) && Enabled(s, l)
    ensures CorrOk(Apply(s, l))
  {
    CorrUnique(s, l);
    forall d | 0 <= d < |Apply(s, l).calls| ensures CallCorr(Apply(s, l).calls[d]) {
      if d < |s.calls| {
        CorrOne(s, l, d);
      } else {
        CorrNew(s, l, d);
      }
    }
  }

  lemma {:induction false} WaitersFinish(s: State, c: nat, out: Outcome)
    requires ClientsOk(s) && WaitersOk(s) && In(s, c)
    ensures WaitersOk(Finish(s, c, out))
  {
    var s' := Finish(s, c, out);
    forall k | 0 <= k < |s'.clients|
      ensures forall corr :: corr in s'.clients[k].waiters ==> WaiterOk(s', k, corr, s'.clients[k].waiters[corr])
    {
      forall corr | corr in s'.clients[k].waiters ensures WaiterOk(s', k, corr, s'.clients[k].waiters[corr]) {
        assert corr in s.clients[k].waiters;
        assert WaiterOk(s, k, corr, s.clients[k].waiters[corr]);
      }
    }
  }

  lemma {:induction false} WaitersKeep(s: State, s': State)
    requires WaitersOk(s) && |s'.clients| == |s.clients| && |s.calls| <= |s'.calls|
    requires forall k :: 0 <= k < |s.clients| ==> s'.clients[k].waiters == s.clients[k].waiters || s'.clients[k].waiters == map[]
    requires forall c :: 0 <= c < |s.calls| ==>
               && s'.calls[c].client == s.calls[c].client
               && s'.calls[c].corr == s.calls[c].corr
               && (Registered(s.calls[c].phase) ==> Registered(s'.calls[c].phase))
    ensures WaitersOk(s')
  {
    forall k | 0 <= k < |s'.clients|
      ensures forall corr :: corr in s'.clients[k].waiters ==> WaiterOk(s', k, corr, s'.clients[k].waiters[corr])
    {
      forall corr | corr in s'.clients[k].waiters ensures WaiterOk(s', k, corr, s'.clients[k].waiters[corr]) {
        assert WaiterOk(s, k, corr, s.clients[k].waiters[corr]);
      }
    }
  }

  lemma {:induction false} WaitersRegister(s: State, c: nat, corr: nat)
    requires ClientsOk(s) && WaitersOk(s) && CorrOk(s) && Enabled(s, Register(c, corr))
    ensures WaitersOk(Apply(s, Register(c, corr)))
  {
    var s' := Apply(s, Register(c, corr));
    forall k | 0 <= k < |s'.clients|
      ensures forall x :: x in s'.clients[k].waiters ==> WaiterOk(s', k, x, s'.clients[k].waiters[x])
    {
      forall x | x in s'.clients[k].waiters ensures WaiterOk(s', k, x, s'.clients[k].waiters[x]) {
        if !(k == s.calls[c].client && x == corr) {
          assert x in s.clients[k].waiters;
          assert WaiterOk(s, k, x, s.clients[k].waiters[x]);
        }
      }
    }
  }

  lemma {:induction false} WaitersFinishing(s: State, l: Label)
    requires ClientsOk(s) && WaitersOk(s) && Enabled(s, l) && Finishes(s, l)
    ensures WaitersOk(Apply(s, l))
  {
    FinishForm(s, l);
    WaitersKeep(s, BeforeFinish(s, l));
    WaitersFinish(BeforeFinish(s, l), l.c, FinishOutcome(s, l));
  }

  lemma {:induction false} WaitersOther(s: State, l: Label)
    requires WaitersOk(s) && Enabled(s, l) && !Finishes(s, l) && !l.Register?
    ensures WaitersOk(Apply(s, l))
  {
    KeepsWaiters(s, l);
    WaitersKeep(s, Apply(s, l));
  }

  lemma {:induction false} KeepsWaiters(s: State, l: Label)
    requires Enabled(s, l) && !Finishes(s, l) && !l.Register?
    ensures var t := Apply(s, l);
            && |t.clients| == |s.clients| && |s.calls| <= |t.calls|
            && (forall k :: 0 <= k < |s.clients| ==>
                  t.clients[k].waiters == s.clients[k].waiters || t.clients[k].waiters == map[])
            && forall c :: 0 <= c < |s.calls| ==>
                 && t.calls[c].client == s.calls[c].client
                 && t.calls[c].corr == s.calls[c].corr
                 && (Registered(s.calls[c].phase) ==> Registered(t.calls[c].phase))
  {
  }

  lemma {:induction false} WaitersStep(s: State, l: Label)
    requires ClientsOk(s) && WaitersOk(s) && CorrOk(s) && Enabled(s, l)
    ensures WaitersOk(Apply(s, l))
  {
    if Finishes(s, l) {
      WaitersFinishing(s, l);
    } else if l.Register? {
      WaitersRegister(s, l.c, l.corr);
    } else {
      WaitersOther(s, l);
    }
  }

  /** The calls' addresses never change once they are known, and traffic only grows. */
  predicate Keeps(s: State, t: State) {
    && |s.calls| <= |t.calls|
    && s.requests <= t.requests
    && s.published <= t.published
    && forall c :: 0 <= c < |s.calls| ==>
         t.calls[c].client == s.calls[c].client && (s.calls[c].corr.Some? ==> t.calls[c].corr == s.calls[c].corr)
  }

  lemma {:induction false} KeepsFinish(s: State, l: Label)
    requires Enabled(s, l) && Finishes(s, l)
    ensures Keeps(s, Apply(s, l))
  {
    FinishForm(s, l);
  }

  lemma {:induction false} KeepsOther(s: State, l: Label)
    requires CorrOk(s) && Enabled(s, l) && !Finishes(s, l)
    ensures Keeps(s, Apply(s, l))
  {
    if l.Register? {
      assert CallCorr(s.calls[l.c]);
    }
  }

  lemma {:induction false} KeepsStep(s: State, l: Label)
    requires CorrOk(s) && Enabled(s, l)
    ensures Keeps(s, Apply(s, l))
  {
    if Finishes(s, l) {
      KeepsFinish(s, l);
    } else {
      KeepsOther(s, l);
    }
  }

  lemma {:induction false} TrafficStep(s: State, l: Label)
    requires CorrOk(s) && TrafficOk(s) && Enabled(s, l)
    ensures TrafficOk(Apply(s, l))
  {
    KeepsStep(s, l);
    var t := Apply(s, l);
    forall r | 0 <= r < |t.requests|
      ensures && t.requests[r].call < |t.calls|
              && t.calls[t.requests[r].call].corr == Some(t.requests[r].corr)
              && t.calls[t.requests[r].call].client == t.requests[r].client
    {
      if r < |s.requests| {
        assert t.requests[r] == s.requests[r];
      }
    }
    forall m | 0 <= m < |t.published|
      ensures && t.published[m].origin < |t.requests|
              && t.requests[t.published[m].origin].corr == t.published[m].corr
              && t.requests[t.published[m].origin].client == t.published[m].client
    {
      if m < |s.published| {
        assert t.published[m] == s.published[m];
      }
    }
  }

  // ------------------------------------------------------------------
  // Answers
  // ------------------------------------------------------------------

  lemma {:induction false} AnsweredKept(s: State, t: State, c: nat, body: Body)
    requires Answered(s, c, body) && s.requests <= t.requests && s.published <= t.published
    ensures Answered(t, c, body)
  {
    var m :| && 0 <= m < |s.published|
             && s.published[m].kind.Reply? && s.published[m].trusted && s.published[m].body == body
             && s.published[m].origin < |s.requests| && s.requests[s.published[m].origin].call == c;
    assert t.published[m] == s.published[m];
    assert t.requests[s.published[m].origin] == s.requests[s.published[m].origin];
  }

  /** A message that reaches a waiter was published for that waiter's own call. */
  lemma {:induction false} DeliveredToOwnCall(s: State, m: nat)
    requires WaitersOk(s) && CorrOk(s) && TrafficOk(s) && m < |s.published| && s.published[m].client < |s.clients|
    requires s.published[m].corr in s.clients[s.published[m].client].waiters
    ensures var c := s.clients[s.published[m].client].waiters[s.published[m].corr];
            c < |s.calls| && s.requests[s.published[m].origin].call == c
  {
    var k, corr := s.published[m].client, s.published[m].corr;
    var c := s.clients[k].waiters[corr];
    assert WaiterOk(s, k, corr, c);
    var d := s.requests[s.published[m].origin].call;
    assert s.calls[d].corr == Some(corr) && s.calls[c].corr == Some(corr);
  }

  lemma {:induction false} AnswersDeliver(s: State, m: nat, full: bool)
    requires WaitersOk(s) && CorrOk(s) && TrafficOk(s) && AnswersOk(s) && Enabled(s, Deliver(m, full))
    ensures AnswersOk(Apply(s, Deliver(m, full)))
  {
    var t := Apply(s, Deliver(m, full));
    if s.published[m].corr in s.clients[s.published[m].client].waiters {
      DeliveredToOwnCall(s, m);
    }
    forall c | 0 <= c < |t.calls| ensures CallAnswered(t, c) {
      assert CallAnswered(s, c);
      if t.calls[c].fut != s.calls[c].fut && t.calls[c].fut.Result? {
        assert s.published[m].kind.Reply? && s.published[m].trusted && s.published[m].body == t.calls[c].fut.body;
        assert Answered(t, c, t.calls[c].fut.body);
      }
    }
  }

  /** Everything a call knows in `next` it knew in `call`. */
  predicate NoNewAnswer(call: Call, next: Call) {
    && (next.fut.Result? ==> call.fut == next.fut)
    && (next.phase.Draining? ==> call.phase == next.phase || call.fut == Result(next.phase.reply))
    && (next.phase.CleaningUp? && next.phase.out.Returned? ==>
          || call.phase == next.phase
          || call.fut == Result(next.phase.out.body)
          || call.phase == Draining(next.phase.out.body))
    && (next.phase.Ended? && next.phase.out.Returned? ==>
          || call.phase == next.phase
          || call.fut == Result(next.phase.out.body)
          || call.phase == Draining(next.phase.out.body)
          || call.phase == CleaningUp(next.phase.out))
  }

  lemma {:induction false} AnswerFinish(s: State, l: Label, c: nat)
    requires Enabled(s, l) && Finishes(s, l) && c < |s.calls|
    ensures c < |Apply(s, l).calls| && NoNewAnswer(s.calls[c], Apply(s, l).calls[c])
  {
    FinishForm(s, l);
  }

  lemma {:induction false} AnswerOther(s: State, l: Label, c: nat)
    requires Enabled(s, l) && !Finishes(s, l) && !l.Deliver? && c < |s.calls|
    ensures c < |Apply(s, l).calls| && NoNewAnswer(s.calls[c], Apply(s, l).calls[c])
  {
  }

  /** No other step invents an answer. */
  lemma {:induction false} AnswerSource(s: State, l: Label, c: nat)
    requires Enabled(s, l) && !l.Deliver? && c < |s.calls|
    ensures c < |Apply(s, l).calls| && NoNewAnswer(s.calls[c], Apply(s, l).calls[c])
  {
    if Finishes(s, l) {
      AnswerFinish(s, l, c);
    } else {
      AnswerOther(s, l, c);
    }
  }

  lemma {:induction false} AnswersOther(s: State, l: Label)
    requires CorrOk(s) && AnswersOk(s) && Enabled(s, l) && !l.Deliver?
    ensures AnswersOk(Apply(s, l))
  {
    var t := Apply(s, l);
    KeepsStep(s, l);
    forall c | 0 <= c < |t.calls| ensures CallAnswered(t, c) {
      if c < |s.calls| {
        AnswerSource(s, l, c);
        assert CallAnswered(s, c);
        forall body | Answered(s, c, body) ensures Answered(t, c, body) {
          AnsweredKept(s, t, c, body);
        }
      }
    }
  }

  // ------------------------------------------------------------------
  // Listening
  // ------------------------------------------------------------------

  lemma {:induction false} ListensFinish(s: State, c: nat, out: Outcome, d: nat)
    requires In(s, c) && d < |s.calls| && Listens(s, d)
    ensures Listens(Finish(s, c, out), d)
  {
  }

  lemma {:induction false} ListensClose(s: State, k: nat, d: nat)
    requires k < |s.clients| && d < |s.calls| && Listens(s, d)
    ensures Listens(Apply(s, CloseClient(k)), d)
  {
    var t := Apply(s, CloseClient(k));
    if (s.calls[d].phase.Publishing? || s.calls[d].phase.Awaiting?) && s.calls[d].fut.Unset? && s.calls[d].client == k {
      assert s.calls[d].corr.value in s.clients[k].waiters;
      assert d in s.clients[k].waiters.Values;
    }
  }

  lemma {:induction false} ListensRegister(s: State, c: nat, corr: nat, d: nat)
    requires Enabled(s, Register(c, corr)) && d < |s.calls| && Listens(s, d)
    ensures Listens(Apply(s, Register(c, corr)), d)
  {
  }

  lemma {:induction false} ListensOther(s: State, l: Label, d: nat)
    requires Enabled(s, l) && !Finishes(s, l) && !l.CloseClient? && !l.Register? && d < |s.calls| && Listens(s, d)
    ensures d < |Apply(s, l).calls| && Listens(Apply(s, l), d)
  {
    KeepsListening(s, l, d);
  }

  /** Neither waits anew, nor takes a waiter out. */
  lemma {:induction false} KeepsListening(s: State, l: Label, d: nat)
    requires Enabled(s, l) && !Finishes(s, l) && !l.CloseClient? && !l.Register? && d < |s.calls|
    ensures var t := Apply(s, l);
            && d < |t.calls| && |t.clients| == |s.clients|
            && t.calls[d].client == s.calls[d].client && t.calls[d].corr == s.calls[d].corr
            && ((t.calls[d].phase.Publishing? || t.calls[d].phase.Awaiting?) && t.calls[d].fut.Unset? ==>
                  (s.calls[d].phase.Publishing? || s.calls[d].phase.Awaiting?) && s.calls[d].fut.Unset?)
            && forall k :: 0 <= k < |s.clients| ==> t.clients[k].waiters == s.clients[k].waiters
  {
  }

  lemma {:induction false} ListensFinishing(s: State, l: Label, d: nat)
    requires Enabled(s, l) && Finishes(s, l) && d < |s.calls| && Listens(s, d)
    ensures d < |Apply(s, l).calls| && Listens(Apply(s, l), d)
  {
    FinishForm(s, l);
    assert Listens(BeforeFinish(s, l), d);
    ListensFinish(BeforeFinish(s, l), l.c, FinishOutcome(s, l), d);
  }

  lemma {:induction false} ListensOne(s: State, l: Label, d: nat)
    requires Enabled(s, l) && d < |s.calls| && Listens(s, d)
    ensures d < |Apply(s, l).calls| && Listens(Apply(s, l), d)
  {
    if Finishes(s, l) {
      ListensFinishing(s, l, d);
    } else if l.CloseClient? {
      ListensClose(s, l.k, d);
    } else if l.Register? {
      ListensRegister(s, l.c, l.corr, d);
    } else {
      ListensOther(s, l, d);
    }
  }

  lemma {:induction false} ListensNew(s: State, l: Label, d: nat)
    requires Enabled(s, l) && |s.calls| <= d < |Apply(s, l).calls|
    ensures Listens(Apply(s, l), d)
  {
  }

  lemma {:induction false} ListensStep(s: State, l: Label)
    requires ListensOk(s) && Enabled(s, l)
    ensures ListensOk(Apply(s, l))
  {
    forall d: nat ensures Listens(Apply(s, l), d) {
      assert Listens(s, d);
      if d < |s.calls| {
        ListensOne(s, l, d);
      } else if d < |Apply(s, l).calls| {
        ListensNew(s, l, d);
      }
    }
  }

  // ------------------------------------------------------------------
  // Every run
  // ------------------------------------------------------------------

  lemma {:induction false} InvInit(limits: seq<nat>)
    ensures Inv(Init(limits))
  {
    var s := Init(limits);
    forall k | 0 <= k < |s.clients| ensures Holders(s.calls, k) == {} {
    }
  }

  lemma {:induction false} InvStep(s: State, l: Label)
    requires Inv(s) && Enabled(s, l)
    ensures Inv(Apply(s, l))
  {
    ClientsStep(s, l);
    PermitsStep(s, l);
    CorrStep(s, l);
    WaitersStep(s, l);
    TrafficStep(s, l);
    ListensStep(s, l);
    if l.Deliver? {
      AnswersDeliver(s, l.m, l.full);
    } else {
      AnswersOther(s, l);
    }
  }

  lemma {:induction false} InvRun(s: State, labels: seq<Label>, t: State)
    requires Inv(s) && Run(s, labels, t)
    ensures Inv(t)
    decreases |labels|
  {
    if labels != [] {
      InvStep(s, labels[0]);
      InvRun(Apply(s, labels[0]), labels[1..], t);
    }
  }

  lemma {:induction false} InvReachable(limits: seq<nat>, s: State)
    requires Reachable(limits, s)
    ensures Inv(s)
  {
    var labels :| Run(Init(limits), labels, s);
    InvInit(limits);
    InvRun(Init(limits), labels, s);
  }
}
