/** Closing an RPC client: what ends the registered calls, and who can still register. */
module RpcClose {
  import opened Rpc
  import opened RpcProofs
  import opened RpcTheorems

  // ------------------------------------------------------------------
  // A call's own steps
  // ------------------------------------------------------------------

  /** How many await points a call still has before it. */
  function Remaining(p: Phase): nat {
    match p
    case Queued => 8
    case Holding => 7
    case Locking => 6
    case Connecting => 5
    case Publishing => 4
    case Awaiting => 3
    case Draining(_) => 2
    case CleaningUp(_) => 1
    case Ended(_) => 0
  }

  /** The same, counting a running stream task as half a step. */
  function Rank(call: Call): nat {
    2 * Remaining(call.phase) + if call.stream.Streaming? then 1 else 0
  }

  /** The call's own progress: no timeout, no cancellation, no failed publish, no delivery. */
  predicate Own(l: Label, c: nat) {
    l == Publish(c) || l == Wake(c) || l == Drained(c) || l == StreamEnds(c) || l == CleanedUp(c)
  }

  predicate AllOwn(labels: seq<Label>, c: nat) {
    forall i :: 0 <= i < |labels| ==> Own(labels[i], c)
  }

  /** The call waits for a reply that is not there. */
  predicate Hangs(call: Call) {
    (call.phase.Publishing? || call.phase.Awaiting?) && call.fut.Unset?
  }

  /** A call past registration that does not hang. */
  predicate Released(call: Call) {
    Remaining(call.phase) <= 4 && !Hangs(call)
  }

  /** What its own steps make of a call. */
  function Destined(call: Call): Outcome {
    match call.phase
    case Ended(out) => out
    case CleaningUp(out) => out
    case Draining(reply) => Returned(reply)
    case _ => if call.fut.Result? then Returned(call.fut.body) else Raised
  }

  lemma {:induction false} OwnStep(s: State, l: Label, c: nat)
    requires Enabled(s, l) && Own(l, c)
    ensures c < |s.calls| == |Apply(s, l).calls|
    ensures var call, next := s.calls[c], Apply(s, l).calls[c];
            && Rank(next) < Rank(call) && Destined(next) == Destined(call)
            && (Hangs(call) <==> Hangs(next)) && (Released(call) ==> Released(next))
  {
  }

  /** Nobody's step moves a call away from its end, makes it hang again, or makes it return anything
      but what it was destined to return. */
  lemma {:induction false} AnyStep(s: State, l: Label, c: nat)
    requires Enabled(s, l) && c < |s.calls| && Released(s.calls[c])
    ensures c < |Apply(s, l).calls|
    ensures var call, next := s.calls[c], Apply(s, l).calls[c];
            && Released(next) && Rank(next) <= Rank(call)
            && (Destined(next) == Destined(call) || Destined(next) == Raised)
  {
    if Finishes(s, l) {
      FinishStep(s, l, c);
    } else {
      QuietStep(s, l, c);
    }
  }

  lemma {:induction false} FinishStep(s: State, l: Label, c: nat)
    requires Enabled(s, l) && Finishes(s, l) && c < |s.calls| && Released(s.calls[c])
    ensures c < |Apply(s, l).calls|
    ensures var call, next := s.calls[c], Apply(s, l).calls[c];
            && Released(next) && Rank(next) <= Rank(call)
            && (Destined(next) == Destined(call) || Destined(next) == Raised)
  {
    FinishForm(s, l);
  }

  lemma {:induction false} QuietStep(s: State, l: Label, c: nat)
    requires Enabled(s, l) && !Finishes(s, l) && c < |s.calls| && Released(s.calls[c])
    ensures c < |Apply(s, l).calls|
    ensures var call, next := s.calls[c], Apply(s, l).calls[c];
            && Released(next) && Rank(next) <= Rank(call)
            && (Destined(next) == Destined(call) || Destined(next) == Raised)
  {
  }

  lemma {:induction false} AnyRun(s: State, labels: seq<Label>, t: State, c: nat)
    requires Run(s, labels, t) && c < |s.calls| && Released(s.calls[c])
    ensures c < |t.calls| && Released(t.calls[c]) && Rank(t.calls[c]) <= Rank(s.calls[c])
    ensures Destined(t.calls[c]) == Destined(s.calls[c]) || Destined(t.calls[c]) == Raised
    decreases |labels|
  {
    if labels != [] {
      AnyStep(s, labels[0], c);
      AnyRun(Apply(s, labels[0]), labels[1..], t, c);
    }
  }

  /** A released call that has not ended can take one of its own steps. */
  lemma {:induction false} OwnStepExists(s: State, c: nat) returns (l: Label)
    requires ClientsOk(s) && c < |s.calls| && Released(s.calls[c]) && !s.calls[c].phase.Ended?
    ensures Own(l, c) && Enabled(s, l)
  {
    match s.calls[c].phase
    case Publishing => l := Publish(c);
    case Awaiting => l := Wake(c);
    case Draining(_) => l := Drained(c);
    case CleaningUp(_) => l := if s.calls[c].stream.Streaming? then StreamEnds(c) else CleanedUp(c);
  }

  /** Its own steps alone end a released call, with the outcome it is destined for. */
  lemma {:induction false} EndAlone(s: State, c: nat) returns (own: seq<Label>, u: State)
    requires ClientsOk(s) && c < |s.calls| && Released(s.calls[c])
    ensures Run(s, own, u) && AllOwn(own, c) && |own| <= Rank(s.calls[c])
    ensures c < |u.calls| && u.calls[c].phase == Ended(Destined(s.calls[c]))
    decreases Rank(s.calls[c])
  {
    if s.calls[c].phase.Ended? {
      own, u := [], s;
    } else {
      var l := OwnStepExists(s, c);
      OwnStep(s, l, c);
      ClientsStep(s, l);
      var rest, end := EndAlone(Apply(s, l), c);
      RunCons(s, l, rest, end);
      own, u := [l] + rest, end;
    }
  }

  lemma {:induction false} HangsAlone(s: State, own: seq<Label>, u: State, c: nat)
    requires Run(s, own, u) && AllOwn(own, c) && c < |s.calls| && Hangs(s.calls[c])
    ensures c < |u.calls| && Hangs(u.calls[c])
    decreases |own|
  {
    if own != [] {
      OwnStep(s, own[0], c);
      HangsAlone(Apply(s, own[0]), own[1..], u, c);
    }
  }

  /** Some run of the call's own steps ends it. */
  ghost predicate EndsAlone(s: State, c: nat) {
    exists own, u :: Run(s, own, u) && AllOwn(own, c) && c < |u.calls| && u.calls[c].phase.Ended?
  }

  /** A registered call can end by its own steps if and only if it does not hang: otherwise it needs a
      reply, a close, a timeout or a cancellation. */
  lemma {:induction false} EndsAloneExactly(limits: seq<nat>, s: State, c: nat)
    requires Reachable(limits, s) && c < |s.calls| && Registered(s.calls[c].phase)
    ensures EndsAlone(s, c) <==> !Hangs(s.calls[c])
  {
    InvReachable(limits, s);
    if Hangs(s.calls[c]) {
      forall own, u | Run(s, own, u) && AllOwn(own, c) ensures c < |u.calls| && !u.calls[c].phase.Ended? {
        HangsAlone(s, own, u, c);
      }
    } else {
      var own, u := EndAlone(s, c);
    }
  }

  // ------------------------------------------------------------------
  // Close
  // ------------------------------------------------------------------

  /** The reply has reached the call. */
  predicate ReplySet(call: Call) { call.fut.Result? || call.phase.Draining? }

  lemma {:induction false} CloseReleases(s: State, k: nat, c: nat)
    requires ListensOk(s) && k < |s.clients|
    requires c < |s.calls| && s.calls[c].client == k && Registered(s.calls[c].phase)
    ensures var call := Apply(s, CloseClient(k)).calls[c];
            Released(call) && Destined(call) == if ReplySet(s.calls[c]) then Destined(s.calls[c]) else Raised
  {
    assert Listens(s, c);
    if Hangs(s.calls[c]) {
      assert s.calls[c].corr.value in s.clients[k].waiters;
      assert c in s.clients[k].waiters.Values;
    }
  }

  /** Every call that is registered when `close` runs ends. In every state of every run after the close
      it does not hang, whatever is delivered, lost or reconnected; and from each such state at most
      `Rank` of its own steps end it, without any reply, timeout or cancellation. It raises, unless its
      reply had been set before the close: then it may still return that reply and no other. */
  lemma {:induction false} CloseEndsRegisteredCalls(
    limits: seq<nat>, s: State, k: nat, labels: seq<Label>, t: State, c: nat) returns (own: seq<Label>, u: State)
    requires Reachable(limits, s) && k < |s.clients|
    requires c < |s.calls| && s.calls[c].client == k && Registered(s.calls[c].phase)
    requires Run(Apply(s, CloseClient(k)), labels, t)
    ensures c < |t.calls| && !Hangs(t.calls[c])
    ensures Run(t, own, u) && AllOwn(own, c) && |own| <= Rank(t.calls[c])
    ensures c < |u.calls| && u.calls[c].phase == Ended(Destined(t.calls[c]))
    ensures Destined(t.calls[c]) == Raised || (ReplySet(s.calls[c]) && Destined(t.calls[c]) == Destined(s.calls[c]))
  {
    InvReachable(limits, s);
    InvStep(s, CloseClient(k));
    InvRun(Apply(s, CloseClient(k)), labels, t);
    CloseReleases(s, k, c);
    AnyRun(Apply(s, CloseClient(k)), labels, t, c);
    own, u := EndAlone(t, c);
  }

  // ------------------------------------------------------------------
  // Registration after close
  // ------------------------------------------------------------------

  predicate PastClosedCheck(p: Phase) { p.Connecting? || Registered(p) }

  predicate OnlyEarly(s: State, t: State, k: nat) {
    && k < |t.clients| && t.clients[k].closed
    && |s.calls| <= |t.calls|
    && forall c :: 0 <= c < |t.calls| && t.calls[c].client == k && PastClosedCheck(t.calls[c].phase) ==>
         c < |s.calls| && PastClosedCheck(s.calls[c].phase)
  }

  lemma {:induction false} EarlyCallStep(t: State, l: Label, k: nat, c: nat)
    requires Enabled(t, l) && k < |t.clients| && t.clients[k].closed && l != Reopen(k)
    requires c < |Apply(t, l).calls| && Apply(t, l).calls[c].client == k && PastClosedCheck(Apply(t, l).calls[c].phase)
    ensures c < |t.calls| && t.calls[c].client == k && PastClosedCheck(t.calls[c].phase)
  {
  }

  lemma {:induction false} ClosedStays(t: State, l: Label, k: nat)
    requires Enabled(t, l) && k < |t.clients| && t.clients[k].closed && l != Reopen(k)
    ensures k < |Apply(t, l).clients| && Apply(t, l).clients[k].closed && |t.calls| <= |Apply(t, l).calls|
  {
  }

  lemma {:induction false} OnlyEarlyRun(s: State, u: State, labels: seq<Label>, t: State, k: nat)
    requires OnlyEarly(s, u, k) && Run(u, labels, t)
    requires forall i :: 0 <= i < |labels| ==> labels[i] != Reopen(k)
    ensures OnlyEarly(s, t, k)
    decreases |labels|
  {
    if labels != [] {
      var u' := Apply(u, labels[0]);
      ClosedStays(u, labels[0], k);
      forall c | 0 <= c < |u'.calls| && u'.calls[c].client == k && PastClosedCheck(u'.calls[c].phase)
        ensures c < |s.calls| && PastClosedCheck(s.calls[c].phase)
      {
        EarlyCallStep(u, labels[0], k, c);
      }
      OnlyEarlyRun(s, u', labels[1..], t, k);
    }
  }

  /** `close` does not take the resource lock. While the client stays closed, the calls that can be
      found registered are exactly those that were registered or already connecting at the close:
      nobody else passes the closed check, */
  lemma {:induction false} OnlyConnectingCallsRegisterLate(
    s: State, k: nat, labels: seq<Label>, t: State, c: nat)
    requires k < |s.clients| && Run(Apply(s, CloseClient(k)), labels, t)
    requires forall i :: 0 <= i < |labels| ==> labels[i] != Reopen(k)
    requires c < |t.calls| && t.calls[c].client == k && Registered(t.calls[c].phase)
    ensures c < |s.calls| && (Registered(s.calls[c].phase) || s.calls[c].phase.Connecting?)
  {
    OnlyEarlyRun(s, Apply(s, CloseClient(k)), labels, t, k);
  }

  /** and every call that is connecting at the close can register a waiter in the closed client. */
  lemma {:induction false} ConnectingCallRegistersAfterClose(s: State, k: nat, c: nat, corr: nat)
    requires k < |s.clients| && c < |s.calls| && s.calls[c].client == k && s.calls[c].phase.Connecting?
    requires forall d :: 0 <= d < |s.calls| ==> s.calls[d].corr != Some(corr)
    ensures Enabled(Apply(s, CloseClient(k)), Register(c, corr))
    ensures var t := Apply(Apply(s, CloseClient(k)), Register(c, corr));
            t.clients[k].closed && corr in t.clients[k].waiters && t.clients[k].waiters[corr] == c
  {
  }

  /** It happens: for every client there is a run in which a call is connecting at the close and then
      registers in the closed client. */
  lemma {:induction false} LateRegistrationHappens(limits: seq<nat>, k: nat) returns (labels: seq<Label>, t: State)
    requires k < |limits|
    ensures Run(Init(limits), labels, t) && k < |t.clients|
    ensures t.clients[k].closed && |t.calls| == 1 && Registered(t.calls[0].phase) && 0 in t.clients[k].waiters
  {
    var early, s := ReachConnecting(limits, k);
    ConnectingCallRegistersAfterClose(s, k, 0, 0);
    var s1 := Apply(s, CloseClient(k));
    t := Apply(s1, Register(0, 0));
    RunCons(s1, Register(0, 0), [], t);
    RunCons(s, CloseClient(k), [Register(0, 0)] + [], t);
    RunJoin(Init(limits), early, s, [CloseClient(k)] + ([Register(0, 0)] + []), t);
    labels := early + ([CloseClient(k)] + ([Register(0, 0)] + []));
  }
}
