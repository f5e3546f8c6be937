/** The multiplexed RPC protocol: many clients, each with one reply queue and a dictionary of
    waiters; servers that answer any delivered request; a network that loses nothing it was not told
    to lose but delivers every published message any number of times and in any order. */
module Rpc {

  type Body = string

  datatype Option<T> = None | Some(value: T)

  /** The waiter's future. */
  datatype Fut = Unset | Result(body: Body) | Failed | Abandoned

  datatype Outcome = Returned(body: Body) | Raised

  datatype Stream = NoStream | Wanted | Streaming | StreamDone

  /** The await points of one `request` coroutine. */
  datatype Phase =
    | Queued                        // waiting for an in-flight permit
    | Holding                       // has a permit, not yet connected
    | Locking                       // waiting for the resource lock
    | Connecting                    // past the second closed check, creating the topology
    | Publishing                    // waiter registered, publishing
    | Awaiting                      // published, waiting for the reply
    | Draining(reply: Body)         // has the reply, waiting for the stream
    | CleaningUp(out: Outcome)      // in `finally`, waiting for the cancelled stream task
    | Ended(out: Outcome)

  datatype Call = Call(client: nat, corr: Option<nat>, phase: Phase, fut: Fut, stream: Stream)

  datatype Client = Client(limit: nat, free: int, leaked: nat, closed: bool, connected: bool, waiters: map<nat, nat>)

  datatype Request = Request(call: nat, client: nat, corr: nat)

  datatype Kind = Reply | StreamEvent

  /** A published message; `origin` is the request whose dispatch published it. */
  datatype Message = Message(client: nat, corr: nat, kind: Kind, trusted: bool, body: Body, origin: nat)

  datatype State = State(
    clients: seq<Client>, calls: seq<Call>, requests: seq<Request>, published: seq<Message>)

  datatype Label =
    | Begin(client: nat, streams: bool)
    | Acquire(c: nat)
    | Refuse(c: nat)
    | WaitLock(c: nat)
    | Connect(c: nat)
    | ConnectFail(c: nat)
    | Register(c: nat, corr: nat)
    | Publish(c: nat)
    | PublishFail(c: nat, sent: bool)
    | Serve(r: nat, kind: Kind, trusted: bool, body: Body)
    | Deliver(m: nat, full: bool)
    | Wake(c: nat)
    | Timeout(c: nat)
    | StreamEnds(c: nat)
    | Drained(c: nat)
    | StreamRaises(c: nat)
    | CancelCall(c: nat)
    | CleanedUp(c: nat)
    | CancelCleanup(c: nat)
    | CloseClient(k: nat)
    | Disconnect(k: nat)
    | Reopen(k: nat)

  function Max(a: nat, b: nat): nat { if a >= b then a else b }

  function Init(limits: seq<nat>): State {
    State(seq(|limits|, k requires 0 <= k < |limits| =>
                Client(Max(1, limits[k]), Max(1, limits[k]), 0, false, false, map[])),
          [], [], [])
  }

  predicate In(s: State, c: nat) { c < |s.calls| && s.calls[c].client < |s.clients| }

  function ClientOf(s: State, c: nat): Client
    requires In(s, c)
  {
    s.clients[s.calls[c].client]
  }

  predicate Registered(p: Phase) { p.Publishing? || p.Awaiting? || p.Draining? }

  predicate Holds(p: Phase) { !p.Queued? && !p.Ended? }

  predicate Enabled(s: State, l: Label) {
    match l
    case Begin(k, _) => k < |s.clients|
    case Acquire(c) => In(s, c) && s.calls[c].phase.Queued? && ClientOf(s, c).free > 0
    case Refuse(c) => In(s, c) && (s.calls[c].phase.Holding? || s.calls[c].phase.Locking?) && ClientOf(s, c).closed
    case WaitLock(c) => In(s, c) && s.calls[c].phase.Holding? && !ClientOf(s, c).closed && !ClientOf(s, c).connected
    case Connect(c) => In(s, c) && s.calls[c].phase.Locking? && !ClientOf(s, c).closed && !ClientOf(s, c).connected
    case ConnectFail(c) => In(s, c) && s.calls[c].phase.Connecting?
    case Register(c, corr) =>
      && In(s, c)
      && (|| s.calls[c].phase.Connecting?
          || ((s.calls[c].phase.Holding? || s.calls[c].phase.Locking?)
              && !ClientOf(s, c).closed && ClientOf(s, c).connected))
      && (forall d :: 0 <= d < |s.calls| ==> s.calls[d].corr != Some(corr))
    case Publish(c) => In(s, c) && s.calls[c].phase.Publishing?
    case PublishFail(c, _) => In(s, c) && s.calls[c].phase.Publishing?
    case Serve(r, _, _, _) => r < |s.requests|
    case Deliver(m, _) => m < |s.published| && s.published[m].client < |s.clients|
    case Wake(c) => In(s, c) && s.calls[c].phase.Awaiting? && !s.calls[c].fut.Unset?
    case Timeout(c) => In(s, c) && s.calls[c].phase.Awaiting?
    case StreamEnds(c) => In(s, c) && s.calls[c].stream.Streaming?
    case Drained(c) => In(s, c) && s.calls[c].phase.Draining?
    case StreamRaises(c) => In(s, c) && s.calls[c].phase.Draining?
    case CancelCall(c) => In(s, c) && (s.calls[c].phase.Queued? || Interruptible(s.calls[c].phase))
    case CleanedUp(c) => In(s, c) && s.calls[c].phase.CleaningUp? && !s.calls[c].stream.Streaming?
    case CancelCleanup(c) => In(s, c) && s.calls[c].phase.CleaningUp?
    case CloseClient(k) => k < |s.clients|
    case Disconnect(k) => k < |s.clients|
    case Reopen(k) => k < |s.clients|
  }

  predicate Interruptible(p: Phase) {
    p.Locking? || p.Connecting? || Registered(p)
  }

  // ------------------------------------------------------------------
  // Steps
  // ------------------------------------------------------------------

  function SetCall(s: State, c: nat, call: Call): State
    requires c < |s.calls|
  {
    s.(calls := s.calls[c := call])
  }

  /** The `finally` block: take the waiter out, settle its future, then either wait for the stream
      task or give the permit back. */
  function Finish(s: State, c: nat, out: Outcome): State
    requires In(s, c)
  {
    var call := s.calls[c];
    var client := ClientOf(s, c);
    var waits := call.stream.Streaming?;
    var waiters :=
      if call.corr.Some? && call.corr.value in client.waiters && client.waiters[call.corr.value] == c
      then client.waiters - {call.corr.value} else client.waiters;
    s.(calls := s.calls[c := call.(phase := if waits then CleaningUp(out) else Ended(out),
                                   fut := if call.fut.Unset? then Abandoned else call.fut)],
       clients := s.clients[call.client := client.(waiters := waiters,
                                                   free := if waits then client.free else client.free + 1)])
  }

  /** `_on_message`: route by correlation id; only an unset future is ever set. */
  function OnMessage(s: State, m: Message, full: bool): State
    requires m.client < |s.clients|
  {
    var waiters := s.clients[m.client].waiters;
    if m.corr !in waiters || waiters[m.corr] >= |s.calls| then s
    else
      var c := waiters[m.corr];
      var call := s.calls[c];
      if !call.fut.Unset? then s
      else if !m.trusted then SetCall(s, c, call.(fut := Failed))
      else if m.kind.StreamEvent? then
        if full && !call.stream.NoStream? then SetCall(s, c, call.(fut := Failed)) else s
      else SetCall(s, c, call.(fut := Result(m.body)))
  }

  /** `close`: fail every registered waiter and clear the dictionary. */
  function FailWaiters(s: State, k: nat): seq<Call>
    requires k < |s.clients|
  {
    seq(|s.calls|, c requires 0 <= c < |s.calls| =>
      if c in s.clients[k].waiters.Values && s.calls[c].fut.Unset?
      then s.calls[c].(fut := Failed) else s.calls[c])
  }

  function Apply(s: State, l: Label): State
    requires Enabled(s, l)
  {
    match l
    case Begin(k, streams) =>
      s.(calls := s.calls + [Call(k, None, Queued, Unset, if streams then Wanted else NoStream)])
    case Acquire(c) =>
      var k := s.calls[c].client;
      s.(calls := s.calls[c := s.calls[c].(phase := Holding)],
         clients := s.clients[k := s.clients[k].(free := s.clients[k].free - 1)])
    case Refuse(c) => Finish(s, c, Raised)
    case WaitLock(c) => SetCall(s, c, s.calls[c].(phase := Locking))
    case Connect(c) => SetCall(s, c, s.calls[c].(phase := Connecting))
    case ConnectFail(c) => Finish(s, c, Raised)
    case Register(c, corr) =>
      var call := s.calls[c];
      var client := ClientOf(s, c);
      s.(calls := s.calls[c := call.(phase := Publishing, corr := Some(corr), fut := Unset,
                                     stream := if call.stream.NoStream? then NoStream else Streaming)],
         clients := s.clients[call.client := client.(connected := true, waiters := client.waiters[corr := c])])
    case Publish(c) =>
      SetCall(Send(s, c), c, s.calls[c].(phase := Awaiting))
    case PublishFail(c, sent) => Finish(if sent then Send(s, c) else s, c, Raised)
    case Serve(r, kind, trusted, body) =>
      s.(published := s.published + [Message(s.requests[r].client, s.requests[r].corr, kind, trusted, body, r)])
    case Deliver(m, full) => OnMessage(s, s.published[m], full)
    case Wake(c) =>
      var call := s.calls[c];
      if call.fut.Result? then
        if call.stream.NoStream? then Finish(s, c, Returned(call.fut.body))
        else SetCall(s, c, call.(phase := Draining(call.fut.body)))
      else Finish(s, c, Raised)
    case Timeout(c) => Finish(s, c, Raised)
    case StreamEnds(c) => SetCall(s, c, s.calls[c].(stream := StreamDone))
    case Drained(c) =>
      var s' := SetCall(s, c, s.calls[c].(stream := StreamDone));
      Finish(s', c, Returned(s.calls[c].phase.reply))
    case StreamRaises(c) =>
      var s' := SetCall(s, c, s.calls[c].(stream := StreamDone));
      Finish(s', c, Raised)
    case CancelCall(c) =>
      if s.calls[c].phase.Queued? then SetCall(s, c, s.calls[c].(phase := Ended(Raised)))
      else Finish(s, c, Raised)
    case CleanedUp(c) =>
      var k := s.calls[c].client;
      s.(calls := s.calls[c := s.calls[c].(phase := Ended(s.calls[c].phase.out))],
         clients := s.clients[k := s.clients[k].(free := s.clients[k].free + 1)])
    case CancelCleanup(c) =>
      var k := s.calls[c].client;
      s.(calls := s.calls[c := s.calls[c].(phase := Ended(Raised))],
         clients := s.clients[k := s.clients[k].(leaked := s.clients[k].leaked + 1)])
    case CloseClient(k) =>
      s.(calls := FailWaiters(s, k),
         clients := s.clients[k := s.clients[k].(closed := true, waiters := map[])])
    case Disconnect(k) => s.(clients := s.clients[k := s.clients[k].(connected := false)])
    case Reopen(k) => s.(clients := s.clients[k := s.clients[k].(closed := false)])
  }

  /** The request message of a registered call reaches the broker. */
  function Send(s: State, c: nat): State
    requires c < |s.calls|
  {
    if s.calls[c].corr.None? then s
    else s.(requests := s.requests + [Request(c, s.calls[c].client, s.calls[c].corr.value)])
  }

  predicate Run(s: State, labels: seq<Label>, t: State)
    decreases |labels|
  {
    if labels == [] then s == t
    else Enabled(s, labels[0]) && Run(Apply(s, labels[0]), labels[1..], t)
  }

  ghost predicate Reachable(limits: seq<nat>, s: State) {
    exists labels :: Run(Init(limits), labels, s)
  }

  // ------------------------------------------------------------------
  // Invariants
  // ------------------------------------------------------------------

  /** The calls of client `k` that hold one of its permits. */
  function Holders(calls: seq<Call>, k: nat): set<nat> {
    set c | 0 <= c < |calls| && calls[c].client == k && Holds(calls[c].phase)
  }

  predicate ClientsOk(s: State) {
    forall c :: 0 <= c < |s.calls| ==> s.calls[c].client < |s.clients|
  }

  /** Every permit is free, held by one call, or leaked. */
  predicate PermitsOk(s: State) {
    forall k :: 0 <= k < |s.clients| ==>
      && s.clients[k].free >= 0
      && s.clients[k].free + s.clients[k].leaked + |Holders(s.calls, k)| == s.clients[k].limit
  }

  predicate WaiterOk(s: State, k: nat, corr: nat, c: nat) {
    && c < |s.calls|
    && s.calls[c].client == k
    && s.calls[c].corr == Some(corr)
    && Registered(s.calls[c].phase)
  }

  /** Every waiter belongs to a call that is still between registration and cleanup. */
  predicate WaitersOk(s: State) {
    forall k :: 0 <= k < |s.clients| ==>
      forall corr :: corr in s.clients[k].waiters ==> WaiterOk(s, k, corr, s.clients[k].waiters[corr])
  }

  /** A correlation id exists from registration on, and no stream task before it. */
  predicate CallCorr(call: Call) {
    && (Registered(call.phase) ==> call.corr.Some?)
    && (call.phase.Queued? || call.phase.Holding? || call.phase.Locking? || call.phase.Connecting? ==>
          call.corr.None? && !call.stream.Streaming?)
  }

  predicate CorrOk(s: State) {
    && (forall c, d :: 0 <= c < d < |s.calls| && s.calls[c].corr.Some? ==> s.calls[c].corr != s.calls[d].corr)
    && (forall c :: 0 <= c < |s.calls| ==> CallCorr(s.calls[c]))
  }

  /** Requests carry their call's correlation id, and messages that of the request they answer. */
  predicate TrafficOk(s: State) {
    && (forall r :: 0 <= r < |s.requests| ==>
          && s.requests[r].call < |s.calls|
          && s.calls[s.requests[r].call].corr == Some(s.requests[r].corr)
          && s.calls[s.requests[r].call].client == s.requests[r].client)
    && (forall m :: 0 <= m < |s.published| ==>
          && s.published[m].origin < |s.requests|
          && s.requests[s.published[m].origin].corr == s.published[m].corr
          && s.requests[s.published[m].origin].client == s.published[m].client)
  }

  /** Some server published `body` as a trusted reply to a request of call `c`. */
  ghost predicate Answered(s: State, c: nat, body: Body) {
    exists m ::
      && 0 <= m < |s.published|
      && s.published[m].kind.Reply? && s.published[m].trusted && s.published[m].body == body
      && s.published[m].origin < |s.requests| && s.requests[s.published[m].origin].call == c
  }

  ghost predicate CallAnswered(s: State, c: nat)
    requires c < |s.calls|
  {
    && (s.calls[c].fut.Result? ==> Answered(s, c, s.calls[c].fut.body))
    && (s.calls[c].phase.Draining? ==> Answered(s, c, s.calls[c].phase.reply))
    && (s.calls[c].phase.CleaningUp? && s.calls[c].phase.out.Returned? ==> Answered(s, c, s.calls[c].phase.out.body))
    && (s.calls[c].phase.Ended? && s.calls[c].phase.out.Returned? ==> Answered(s, c, s.calls[c].phase.out.body))
  }

  ghost predicate AnswersOk(s: State) {
    forall c :: 0 <= c < |s.calls| ==> CallAnswered(s, c)
  }

  /** A call waits only while its waiter is registered or its future is done. */
  predicate Listens(s: State, c: nat) {
    c < |s.calls| && (s.calls[c].phase.Publishing? || s.calls[c].phase.Awaiting?) && s.calls[c].fut.Unset? ==>
      && In(s, c) && s.calls[c].corr.Some?
      && s.calls[c].corr.value in ClientOf(s, c).waiters
      && ClientOf(s, c).waiters[s.calls[c].corr.value] == c
  }

  ghost predicate ListensOk(s: State) {
    forall c: nat :: Listens(s, c)
  }

  ghost predicate Inv(s: State) {
    ClientsOk(s) && PermitsOk(s) && WaitersOk(s) && CorrOk(s) && TrafficOk(s) && AnswersOk(s) && ListensOk(s)
  }
}
