/** Imperative parts of the RPC transport: the client's dictionary handling, proved to be steps of the
    protocol machine, and the consumer's dispatch of one delivery. */
module RpcCode {
  import opened Rpc
  import opened RpcProofs

  /** The step of a timed-out call, for its own client. */
  lemma {:induction false} TimeoutStep(s: State, c: nat) returns (t: State)
    requires Inv(s) && Enabled(s, Timeout(c))
    ensures t == Apply(s, Timeout(c)) && Inv(t) && |t.clients| == |s.clients|
    ensures t.clients[s.calls[c].client].closed == s.clients[s.calls[c].client].closed
  {
    InvStep(s, Timeout(c));
    t := Apply(s, Timeout(c));
  }

  /** The `finally` block on the client's own values: drop the own waiter, cancel an unset future, and
      give the permit back unless a stream task has to be awaited first. */
  method FinishCall(waiters: map<nat, nat>, free: int, call: Call, c: nat)
    returns (waiters': map<nat, nat>, free': int, call': Call)
    ensures waiters' == if call.corr.Some? && call.corr.value in waiters && waiters[call.corr.value] == c
                        then waiters - {call.corr.value} else waiters
    ensures free' == if call.stream.Streaming? then free else free + 1
    ensures call' == call.(phase := if call.stream.Streaming? then CleaningUp(Raised) else Ended(Raised),
                           fut := if call.fut.Unset? then Abandoned else call.fut)
  {
    waiters', free', call' := waiters, free, call;
    if call.corr.Some? {
      var corr := call.corr.value;
      if corr in waiters && waiters[corr] == c {
        waiters' := waiters - {corr};
      }
    }
    if call.fut.Unset? {
      call' := call'.(fut := Abandoned);
    }
    if call.stream.Streaming? {
      call' := call'.(phase := CleaningUp(Raised));
    } else {
      call' := call'.(phase := Ended(Raised));
      free' := free + 1;
    }
  }

  /** One client's event-loop state: its waiters, its permits, and the futures of its calls. */
  class RpcClient {
    const id: nat
    var waiters: map<nat, nat>
    var free: int
    var closed: bool
    var calls: seq<Call>
    ghost var machine: State

    ghost predicate Valid()
      reads this
    {
      && Inv(machine)
      && id < |machine.clients|
      && waiters == machine.clients[id].waiters
      && free == machine.clients[id].free
      && closed == machine.clients[id].closed
      && calls == machine.calls
    }

    constructor (ghost limits: seq<nat>, id: nat, limit: nat)
      requires id < |limits| && limit == limits[id]
      ensures Valid() && machine == Init(limits) && this.id == id
    {
      this.id := id;
      waiters := map[];
      free := if limit > 1 then limit else 1;
      closed := false;
      calls := [];
      machine := Init(limits);
      InvInit(limits);
    }

    /** Route one delivery by correlation id. */
    method OnMessage(message: Message, full: bool, ghost m: nat)
      requires Valid() && Enabled(machine, Deliver(m, full)) && machine.published[m] == message
      requires message.client == id
      modifies this
      ensures Valid() && machine == Apply(old(machine), Deliver(m, full))
    {
      InvStep(machine, Deliver(m, full));
      machine := Apply(machine, Deliver(m, full));
      if message.corr !in waiters {
        return;
      }
      var c := waiters[message.corr];
      assert WaiterOk(old(machine), id, message.corr, c);
      if !message.trusted {
        if calls[c].fut.Unset? {
          calls := calls[c := calls[c].(fut := Failed)];
        }
        return;
      }
      if message.kind.StreamEvent? {
        if !calls[c].stream.NoStream? && full {
          if calls[c].fut.Unset? {
            calls := calls[c := calls[c].(fut := Failed)];
          }
        }
        return;
      }
      if calls[c].fut.Unset? {
        calls := calls[c := calls[c].(fut := Result(message.body))];
      }
    }

    /** The `finally` block of a call that timed out. */
    method FinishTimedOut(c: nat)
      requires Valid() && Enabled(machine, Timeout(c)) && machine.calls[c].client == id
      modifies this
      ensures Valid() && machine == Apply(old(machine), Timeout(c))
    {
      machine := TimeoutStep(machine, c);
      var call;
      waiters, free, call := FinishCall(waiters, free, calls[c], c);
      calls := calls[c := call];
    }

    /** Fail every outstanding waiter and empty the dictionary. */
    method Close()
      requires Valid()
      modifies this
      ensures Valid() && machine == Apply(old(machine), CloseClient(id))
    {
      InvStep(machine, CloseClient(id));
      ghost var before := machine;
      assert forall corr :: corr in waiters ==> WaiterOk(before, id, corr, waiters[corr]);
      closed := true;
      var outstanding := waiters.Values;
      waiters := map[];
      calls := FailAll(calls, outstanding);
      machine := Apply(machine, CloseClient(id));
    }
  }

  /** The loop of `close` over the outstanding waiters, in any order. */
  method FailAll(calls: seq<Call>, outstanding: set<nat>) returns (r: seq<Call>)
    requires forall c :: c in outstanding ==> c < |calls|
    ensures |r| == |calls|
    ensures forall c :: 0 <= c < |calls| ==>
              r[c] == if c in outstanding && calls[c].fut.Unset? then calls[c].(fut := Failed) else calls[c]
  {
    r := calls;
    var rest := outstanding;
    while rest != {}
      invariant rest <= outstanding && |r| == |calls|
      invariant forall c :: 0 <= c < |calls| ==>
                  r[c] == if c in outstanding && c !in rest && calls[c].fut.Unset? then calls[c].(fut := Failed) else calls[c]
      decreases rest
    {
      var c :| c in rest;
      rest := rest - {c};
      if r[c].fut.Unset? {
        r := r[c := r[c].(fut := Failed)];
      }
    }
  }

  // ------------------------------------------------------------------
  // The server half
  // ------------------------------------------------------------------

  /** What the broker is told about a delivery. */
  datatype Disposition = Ack | Nack

  /** A delivery; an empty `replyTo` or `corr` is `None`, and a body that is not JSON is malformed. */
  datatype Delivery = Delivery(malformed: bool, replyTo: Option<nat>, corr: Option<nat>)

  datatype Handled = Answer(body: Body) | NoAnswer | Overload | Crash

  /** A reply as it leaves the consumer: to which queue, under which correlation id. */
  datatype Sent = Sent(replyTo: nat, corr: Option<nat>, body: Body)

  const OVERLOADED: Body := "service_overloaded"
  const AUTH_FAILED: Body := "internal_auth"

  /** The reply a delivery must get: a refusal always, an answer if somebody asked for one. */
  function Due(d: Delivery, authentic: bool, handled: Handled): Option<Body> {
    if !authentic then Some(AUTH_FAILED)
    else
      match handled
      case Overload => Some(OVERLOADED)
      case Answer(body) => if d.replyTo.Some? then Some(body) else None
      case _ => None
  }

  /** Exactly the reply `due` went out. */
  predicate Replied(before: seq<Sent>, after: seq<Sent>, d: Delivery, due: Option<Body>) {
    due.Some? && d.replyTo.Some? && after == before + [Sent(d.replyTo.value, d.corr, due.value)]
  }

  class RpcConsumer {
    var channelOpen: bool
    var outbox: seq<Sent>

    /** Dispatch one delivery: verify, handle, publish at most one reply, then ack or nack.
        `authentic` is the verdict on the internal ticket, `handled` what the handler does, and
        `sendFails` whether the broker refuses a publish. */
    method Dispatch(d: Delivery, authentic: bool, handled: Handled, sendFails: bool) returns (r: Disposition)
      modifies this`outbox
      // Nothing is published but the reply that is due, to the requester under its correlation id.
      ensures outbox == old(outbox) || Replied(old(outbox), outbox, d, Due(d, authentic, handled))
      // An acknowledged delivery was understood and handled, and got the reply that is due, unless that is
      // an answer for which there was no channel any more.
      ensures r.Ack? <==>
                && !d.malformed && !(authentic && handled.Crash?)
                && (|| Due(d, authentic, handled).None?
                    || Replied(old(outbox), outbox, d, Due(d, authentic, handled))
                    || (authentic && handled.Answer? && !channelOpen))
      // A rejected delivery has published nothing, so the dead-letter copy is its only trace.
      ensures r.Nack? ==> outbox == old(outbox)
      // A due reply goes out whenever it can.
      ensures !d.malformed && Due(d, authentic, handled).Some? && d.replyTo.Some? && channelOpen && !sendFails
              && (d.corr.Some? || (authentic && handled.Answer?)) ==>
                Replied(old(outbox), outbox, d, Due(d, authentic, handled))
      // Which reply that is: the handler's own answer, the typed busy reply, or the authentication error;
      // a handler without an answer publishes nothing and is acknowledged.
      ensures !d.malformed && authentic && handled.Answer? && d.replyTo.Some? && channelOpen && !sendFails ==>
                r.Ack? && outbox == old(outbox) + [Sent(d.replyTo.value, d.corr, handled.body)]
      ensures !d.malformed && (!authentic || handled.Overload?) && d.replyTo.Some? && d.corr.Some? && channelOpen && !sendFails ==>
                r.Ack? && outbox == old(outbox) + [Sent(d.replyTo.value, d.corr, if authentic then "service_overloaded" else "internal_auth")]
      ensures !d.malformed && (!authentic || handled.Overload?) && (d.replyTo.None? || d.corr.None? || !channelOpen || sendFails) ==> r.Nack?
      ensures !d.malformed && authentic && handled.NoAnswer? ==> r.Ack? && outbox == old(outbox)
    {
      if d.malformed {
        return Nack;
      }
      if !authentic {
        if d.replyTo.None? || d.corr.None? || !channelOpen || sendFails {
          return Nack;
        }
        outbox := outbox + [Sent(d.replyTo.value, d.corr, AUTH_FAILED)];
        return Ack;
      }
      match handled {
        case Crash => return Nack;
        case NoAnswer => return Ack;
        case Answer(body) =>
          if d.replyTo.Some? && channelOpen {
            if sendFails {
              return Nack;
            }
            outbox := outbox + [Sent(d.replyTo.value, d.corr, body)];
          }
          return Ack;
        case Overload =>
          if d.replyTo.None? || d.corr.None? || !channelOpen || sendFails {
            return Nack;
          }
          outbox := outbox + [Sent(d.replyTo.value, d.corr, OVERLOADED)];
          return Ack;
      }
    }
  }
}
