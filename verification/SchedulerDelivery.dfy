/** Results arrive: what each way a forward pass can end means for the items of its batch and for the calls
    that wait for them; and what a cancelled item is spared. */
module SchedulerDelivery {
  import opened SchedulerModel
  import opened SchedulerCompose
  import opened SchedulerPlacement
  import opened SchedulerOrder
  import opened SchedulerWorkers
  import opened SchedulerResults

  // ------------------------------------------------------------------
  // From the forward pass to the future
  // ------------------------------------------------------------------

  /** What an item is told when its forward pass ends this way. */
  predicate Told(f: Text -> Vec, text: Text, response: Response, o: Outcome) {
    && (response.Vectors? ==> o == Vector(f(text)))
    && (response.Raised? ==> o == ModelError)
    && (response.WrongCount? ==> o == Mismatch)
  }

  /** Worker `w` has yet to complete item `id`, at position `i` of its batch, with outcome `o`. */
  predicate Due(s: State, w: nat, i: nat, id: nat, o: Outcome) {
    && w < |s.workers| && s.workers[w].Settling?
    && s.workers[w].done <= i < |s.workers[w].batch| == |s.workers[w].outs|
    && s.workers[w].batch[i] == id && s.workers[w].outs[i] == o
  }

  lemma {:induction false} DueRunning(s: State, w: nat, i: nat, id: nat, o: Outcome)
    requires WorkersOk(s.futures, s.workers) && Due(s, w, i, id, o)
    ensures id < |s.futures| && s.futures[id].Running?
  {
    assert WorkerOk(s.futures, s.workers[w]);
    assert Unsettled(s.workers[w])[i - s.workers[w].done] == id;
  }

  /** The next step of the worker itself. */
  lemma {:induction false} DueSettle(cfg: Config, f: Text -> Vec, s: State, w: nat, i: nat, id: nat, o: Outcome)
    requires WorkersOk(s.futures, s.workers) && Due(s, w, i, id, o) && Enabled(cfg, s, Settle(w))
    ensures var t := Apply(cfg, f, s, Settle(w));
            if s.workers[w].done == i then id < |t.futures| && t.futures[id] == Finished(o)
            else Due(t, w, i, id, o) && t.workers[w].done == s.workers[w].done + 1
  {
    DueRunning(s, w, i, id, o);
  }

  /** Everybody else leaves the worker's batch alone. */
  lemma {:induction false} DueKept(cfg: Config, f: Text -> Vec, s: State, l: Label, w: nat, i: nat, id: nat, o: Outcome)
    requires Due(s, w, i, id, o) && Enabled(cfg, s, l) && l != Settle(w)
    requires l.Start? ==> s.workers[w].NotStarted?
    ensures Due(Apply(cfg, f, s, l), w, i, id, o) && Apply(cfg, f, s, l).workers[w] == s.workers[w]
  {
  }

  function CountOf(l: Label, labels: seq<Label>): nat {
    if labels == [] then 0 else (if labels[0] == l then 1 else 0) + CountOf(l, labels[1..])
  }

  /** Over any run the item is completed with that outcome or still due, and completed once the worker has
      settled as many items as precede it. */
  lemma {:induction false} DueRun(
    cfg: Config, f: Text -> Vec, s: State, labels: seq<Label>, t: State, w: nat, i: nat, id: nat, o: Outcome)
    requires cfg.Valid() && Inv(cfg, f, s) && Run(cfg, f, s, labels, t) && Due(s, w, i, id, o)
    ensures id < |t.futures| && (t.futures[id] == Finished(o) || Due(t, w, i, id, o))
    ensures CountOf(Settle(w), labels) > i - s.workers[w].done ==> t.futures[id] == Finished(o)
    decreases |labels|
  {
    DueRunning(s, w, i, id, o);
    if labels != [] {
      var l, next := labels[0], Apply(cfg, f, s, labels[0]);
      InvStep(cfg, f, s, l);
      if l == Settle(w) {
        DueSettle(cfg, f, s, w, i, id, o);
      } else {
        assert WorkerAwareOf(cfg, s, s.workers[w]);
        DueKept(cfg, f, s, l, w, i, id, o);
      }
      if l == Settle(w) && s.workers[w].done == i {
        SettledRun(cfg, f, next, labels[1..], t, id);
      } else {
        DueRun(cfg, f, next, labels[1..], t, w, i, id, o);
      }
    }
  }

  /** What the pass makes due. */
  lemma {:induction false} PassMakesDue(cfg: Config, f: Text -> Vec, s: State, w: nat, response: Response, i: nat)
    returns (o: Outcome)
    requires Enabled(cfg, s, Encode(w, response)) && i < |s.workers[w].batch|
    ensures Told(f, s.items[s.workers[w].batch[i]].text, response, o)
    ensures Due(Apply(cfg, f, s, Encode(w, response)), w, i, s.workers[w].batch[i], o)
    ensures Apply(cfg, f, s, Encode(w, response)).workers[w].done == 0
  {
    o := Apply(cfg, f, s, Encode(w, response)).workers[w].outs[i];
  }

  lemma {:induction false} PassTells(
    cfg: Config, f: Text -> Vec, s: State, w: nat, response: Response, labels: seq<Label>, t: State, i: nat)
    requires cfg.Valid() && Inv(cfg, f, s) && Enabled(cfg, s, Encode(w, response)) && i < |s.workers[w].batch|
    requires Run(cfg, f, Apply(cfg, f, s, Encode(w, response)), labels, t)
    ensures var id := s.workers[w].batch[i];
            && id < |t.futures|
            && (t.futures[id].Running? ||
                (t.futures[id].Finished? && Told(f, s.items[id].text, response, t.futures[id].outcome)))
            && (CountOf(Settle(w), labels) > i ==> t.futures[id].Finished?)
  {
    var id, next := s.workers[w].batch[i], Apply(cfg, f, s, Encode(w, response));
    InvStep(cfg, f, s, Encode(w, response));
    var o := PassMakesDue(cfg, f, s, w, response, i);
    DueRun(cfg, f, next, labels, t, w, i, id, o);
    if Due(t, w, i, id, o) {
      InvRun(cfg, f, next, labels, t);
      DueRunning(t, w, i, id, o);
    }
  }

  /** From any reachable state in which a forward pass ends, over any run: every item of its batch is still
      running or has been told exactly what the pass ended with, the model's vector of its own text, the
      model's error or the mismatch; and the first `n` of them have been told once the worker has settled
      `n`. */
  lemma {:induction false} PassDelivers(
    cfg: Config, f: Text -> Vec, s: State, w: nat, response: Response, labels: seq<Label>, t: State, i: nat)
    requires cfg.Valid() && Reachable(cfg, f, s) && Enabled(cfg, s, Encode(w, response)) && i < |s.workers[w].batch|
    requires Run(cfg, f, Apply(cfg, f, s, Encode(w, response)), labels, t)
    ensures var id := s.workers[w].batch[i];
            && id < |t.futures|
            && (t.futures[id].Running? ||
                (t.futures[id].Finished? && Told(f, s.items[id].text, response, t.futures[id].outcome)))
            && (CountOf(Settle(w), labels) > i ==> t.futures[id].Finished?)
  {
    InvReachable(cfg, f, s);
    PassTells(cfg, f, s, w, response, labels, t, i);
  }

  function Times(l: Label, n: nat): seq<Label> {
    if n == 0 then [] else [l] + Times(l, n - 1)
  }

  lemma {:induction false} CountTimes(l: Label, n: nat)
    ensures CountOf(l, Times(l, n)) == n
  {
    if n > 0 {
      assert Times(l, n)[1..] == Times(l, n - 1);
      CountTimes(l, n - 1);
    }
  }

  /** Worker `w` is completing a batch of known items. */
  predicate CanSettle(s: State, w: nat) {
    && w < |s.workers| && s.workers[w].Settling? && |s.workers[w].outs| == |s.workers[w].batch|
    && Known(s.futures, s.workers[w].batch)
  }

  lemma {:induction false} SettlesOnce(s: State, w: nat)
    requires CanSettle(s, w) && s.workers[w].done < |s.workers[w].batch|
    ensures CanSettle(ApplySettle(s, w), w)
    ensures ApplySettle(s, w).workers[w] == s.workers[w].(done := s.workers[w].done + 1)
  {
  }

  /** The worker can settle the rest of its batch without anybody's help. */
  lemma {:induction false} SettlesOn(cfg: Config, f: Text -> Vec, s: State, w: nat, n: nat) returns (t: State)
    requires CanSettle(s, w) && s.workers[w].done + n == |s.workers[w].batch|
    ensures Run(cfg, f, s, Times(Settle(w), n), t)
    decreases n
  {
    if n == 0 {
      t := s;
    } else {
      SettlesOnce(s, w);
      t := SettlesOn(cfg, f, ApplySettle(s, w), w, n - 1);
      RunCons(cfg, f, s, Settle(w), ApplySettle(s, w), Times(Settle(w), n - 1), t);
    }
  }

  lemma {:induction false} StartsSettling(cfg: Config, f: Text -> Vec, s: State, w: nat, response: Response)
    requires cfg.Valid() && Reachable(cfg, f, s) && Enabled(cfg, s, Encode(w, response))
    ensures CanSettle(Apply(cfg, f, s, Encode(w, response)), w)
    ensures Apply(cfg, f, s, Encode(w, response)).workers[w].done == 0
    ensures Apply(cfg, f, s, Encode(w, response)).workers[w].batch == s.workers[w].batch
  {
    InvReachable(cfg, f, s);
    assert WorkerOk(s.futures, s.workers[w]);
  }

  /** After a forward pass and one settle per item every item of the batch has been told. */
  lemma {:induction false} PassCompletes(cfg: Config, f: Text -> Vec, s: State, w: nat, response: Response) returns (t: State)
    requires cfg.Valid() && Reachable(cfg, f, s) && Enabled(cfg, s, Encode(w, response))
    ensures Run(cfg, f, Apply(cfg, f, s, Encode(w, response)), Times(Settle(w), |s.workers[w].batch|), t)
    ensures forall i :: 0 <= i < |s.workers[w].batch| ==>
              var id := s.workers[w].batch[i];
              id < |t.futures| && t.futures[id].Finished? && Told(f, s.items[id].text, response, t.futures[id].outcome)
  {
    var n, next := |s.workers[w].batch|, Apply(cfg, f, s, Encode(w, response));
    StartsSettling(cfg, f, s, w, response);
    t := SettlesOn(cfg, f, next, w, n);
    CountTimes(Settle(w), n);
    forall i | 0 <= i < n
      ensures var id := s.workers[w].batch[i];
              id < |t.futures| && t.futures[id].Finished? && Told(f, s.items[id].text, response, t.futures[id].outcome)
    {
      PassDelivers(cfg, f, s, w, response, Times(Settle(w), n), t, i);
    }
  }

  // ------------------------------------------------------------------
  // From the futures to the call
  // ------------------------------------------------------------------

  /** Some forward pass of the run carries the item and ends this way. */
  predicate PassedWith(cfg: Config, f: Text -> Vec, s: State, labels: seq<Label>, id: nat, response: Response)
    decreases |labels|
  {
    && labels != [] && Enabled(cfg, s, labels[0])
    && ((labels[0].Encode? && labels[0].response == response && id in s.workers[labels[0].w].batch)
        || PassedWith(cfg, f, Apply(cfg, f, s, labels[0]), labels[1..], id, response))
  }

  lemma {:induction false} PassedIsTold(
    cfg: Config, f: Text -> Vec, s: State, labels: seq<Label>, t: State, id: nat, response: Response)
    requires cfg.Valid() && Inv(cfg, f, s) && Run(cfg, f, s, labels, t) && PassedWith(cfg, f, s, labels, id, response)
    requires id < |t.futures| && t.futures[id].Finished?
    ensures id < |t.items| && Told(f, t.items[id].text, response, t.futures[id].outcome)
    decreases |labels|
  {
    var l, next := labels[0], Apply(cfg, f, s, labels[0]);
    if l.Encode? && l.response == response && id in s.workers[l.w].batch {
      var i :| 0 <= i < |s.workers[l.w].batch| && s.workers[l.w].batch[i] == id;
      PassTells(cfg, f, s, l.w, response, labels[1..], t, i);
      TextKept(cfg, f, s, labels, t, id);
    } else {
      InvStep(cfg, f, s, l);
      PassedIsTold(cfg, f, next, labels[1..], t, id, response);
    }
  }

  lemma {:induction false} TextKept(cfg: Config, f: Text -> Vec, s: State, labels: seq<Label>, t: State, id: nat)
    requires Run(cfg, f, s, labels, t) && id < |s.items|
    ensures id < |t.items| && t.items[id] == s.items[id]
  {
    ExtendsRun(cfg, f, s, labels, t);
  }

  predicate HasVector(t: State, id: nat) {
    id < |t.futures| && t.futures[id].Finished? && t.futures[id].outcome.Vector?
  }

  /** The items from `first` on have all been told their vectors. */
  predicate AllTold(t: State, first: nat, count: nat) {
    forall id :: first <= id < first + count ==> HasVector(t, id)
  }

  lemma {:induction false} CollectsOnce(cfg: Config, f: Text -> Vec, s: State, c: nat) returns (next: State)
    requires c < |s.calls| && !s.calls[c].raised && |s.calls[c].got| < s.calls[c].count
    requires AllTold(s, s.calls[c].first, s.calls[c].count)
    ensures Enabled(cfg, s, Collect(c)) && next == Apply(cfg, f, s, Collect(c))
    ensures c < |next.calls| && !next.calls[c].raised && |next.calls[c].got| == |s.calls[c].got| + 1
    ensures next.calls[c].first == s.calls[c].first && next.calls[c].count == s.calls[c].count
    ensures AllTold(next, s.calls[c].first, s.calls[c].count)
  {
    var id := s.calls[c].first + |s.calls[c].got|;
    assert HasVector(s, id);
    next := Apply(cfg, f, s, Collect(c));
    assert next.futures == s.futures;
    StillTold(s, next, s.calls[c].first, s.calls[c].count);
  }

  lemma {:induction false} StillTold(s: State, t: State, first: nat, count: nat)
    requires AllTold(s, first, count) && t.futures == s.futures
    ensures AllTold(t, first, count)
  {
    forall id | first <= id < first + count ensures HasVector(t, id) {
      assert HasVector(s, id);
    }
  }

  /** A call whose items all hold vectors collects them without anybody's help. */
  lemma {:induction false} CollectsOn(cfg: Config, f: Text -> Vec, s: State, c: nat, n: nat) returns (t: State)
    requires c < |s.calls| && !s.calls[c].raised && |s.calls[c].got| + n == s.calls[c].count
    requires AllTold(s, s.calls[c].first, s.calls[c].count)
    ensures Run(cfg, f, s, Times(Collect(c), n), t)
    ensures c < |t.calls| && |t.calls[c].got| == t.calls[c].count == s.calls[c].count
    decreases n
  {
    if n == 0 {
      t := s;
    } else {
      var next := CollectsOnce(cfg, f, s, c);
      t := CollectsOn(cfg, f, next, c, n - 1);
      RunCons(cfg, f, s, Collect(c), next, Times(Collect(c), n - 1), t);
    }
  }

  /** Each of these items ran in a forward pass of the run that returned vectors, and has been completed. */
  predicate AllPassed(cfg: Config, f: Text -> Vec, s: State, labels: seq<Label>, t: State, first: nat, count: nat) {
    forall id :: first <= id < first + count ==>
      PassedWith(cfg, f, s, labels, id, Vectors) && id < |t.futures| && t.futures[id].Finished?
  }

  lemma {:induction false} CallTold(
    cfg: Config, f: Text -> Vec, s: State, labels: seq<Label>, t: State, first: nat, count: nat)
    requires cfg.Valid() && Inv(cfg, f, s) && Run(cfg, f, s, labels, t)
    requires AllPassed(cfg, f, s, labels, t, first, count)
    ensures AllTold(t, first, count)
  {
    forall id | first <= id < first + count ensures HasVector(t, id) {
      PassedIsTold(cfg, f, s, labels, t, id, Vectors);
    }
  }

  /** An `encode` call that has not raised, and whose items all ran in forward passes that returned vectors,
      can take its remaining collecting steps whatever else happened, and then returns exactly the model's
      vector of each of its texts, in order. */
  lemma {:induction false} EncodeReturns(
    cfg: Config, f: Text -> Vec, s: State, texts: seq<Text>, cls: Class, labels: seq<Label>, t: State)
    returns (u: State)
    requires cfg.Valid() && Reachable(cfg, f, s) && Enabled(cfg, s, Admit(texts, cls))
    requires Run(cfg, f, Apply(cfg, f, s, Admit(texts, cls)), labels, t)
    requires |s.calls| < |t.calls| && !t.calls[|s.calls|].raised
    requires AllPassed(cfg, f, Apply(cfg, f, s, Admit(texts, cls)), labels, t, |s.items|, |texts|)
    ensures |t.calls[|s.calls|].got| <= |texts|
    ensures Run(cfg, f, t, Times(Collect(|s.calls|), |texts| - |t.calls[|s.calls|].got|), u)
    ensures |s.calls| < |u.calls| && |u.calls[|s.calls|].got| == |texts|
    ensures forall i :: 0 <= i < |texts| ==> u.calls[|s.calls|].got[i] == f(texts[i])
  {
    var c, s' := |s.calls|, Apply(cfg, f, s, Admit(texts, cls));
    CallReady(cfg, f, s, texts, cls, labels, t);
    var n := |texts| - |t.calls[c].got|;
    u := CollectsOn(cfg, f, t, c, n);
    RunJoin(cfg, f, s', labels, t, Times(Collect(c), n), u);
    EncodeRefinesMap(cfg, f, s, texts, cls, labels + Times(Collect(c), n), u);
  }

  /** The call owns its texts' items, and they have all been told. */
  lemma {:induction false} CallReady(
    cfg: Config, f: Text -> Vec, s: State, texts: seq<Text>, cls: Class, labels: seq<Label>, t: State)
    requires cfg.Valid() && Reachable(cfg, f, s) && Enabled(cfg, s, Admit(texts, cls))
    requires Run(cfg, f, Apply(cfg, f, s, Admit(texts, cls)), labels, t)
    requires AllPassed(cfg, f, Apply(cfg, f, s, Admit(texts, cls)), labels, t, |s.items|, |texts|)
    ensures |s.calls| < |t.calls| && |t.calls[|s.calls|].got| <= |texts|
    ensures t.calls[|s.calls|].first == |s.items| && t.calls[|s.calls|].count == |texts|
    ensures AllTold(t, |s.items|, |texts|)
  {
    InvAfterAdmit(cfg, f, s, texts, cls);
    CallTold(cfg, f, Apply(cfg, f, s, Admit(texts, cls)), labels, t, |s.items|, |texts|);
    CallKept(cfg, f, s, texts, cls, labels, t);
  }

  lemma {:induction false} InvAfterAdmit(cfg: Config, f: Text -> Vec, s: State, texts: seq<Text>, cls: Class)
    requires cfg.Valid() && Reachable(cfg, f, s) && Enabled(cfg, s, Admit(texts, cls))
    ensures Inv(cfg, f, Apply(cfg, f, s, Admit(texts, cls)))
  {
    InvReachable(cfg, f, s);
    InvStep(cfg, f, s, Admit(texts, cls));
  }

  lemma {:induction false} CallKept(
    cfg: Config, f: Text -> Vec, s: State, texts: seq<Text>, cls: Class, labels: seq<Label>, t: State)
    requires cfg.Valid() && Reachable(cfg, f, s) && Enabled(cfg, s, Admit(texts, cls))
    requires Run(cfg, f, Apply(cfg, f, s, Admit(texts, cls)), labels, t)
    ensures |s.calls| < |t.calls| && |t.calls[|s.calls|].got| <= |texts|
    ensures t.calls[|s.calls|].first == |s.items| && t.calls[|s.calls|].count == |texts|
  {
    var s' := ApplyAdmit(s, texts, cls);
    EncodeRefinesMap(cfg, f, s, texts, cls, labels, t);
    ExtendsRun(cfg, f, s', labels, t);
    assert s'.calls[|s.calls|] == Call(|s.items|, |texts|, [], false);
  }

  lemma {:induction false} RaisedStep(cfg: Config, f: Text -> Vec, s: State, l: Label, c: nat)
    requires Enabled(cfg, s, l) && c < |s.calls| && s.calls[c].raised
    ensures c < |Apply(cfg, f, s, l).calls| && Apply(cfg, f, s, l).calls[c] == s.calls[c]
  {
  }

  lemma {:induction false} RaisedRun(cfg: Config, f: Text -> Vec, s: State, labels: seq<Label>, t: State, c: nat)
    requires Run(cfg, f, s, labels, t) && c < |s.calls| && s.calls[c].raised
    ensures c < |t.calls| && t.calls[c] == s.calls[c]
    decreases |labels|
  {
    if labels != [] {
      RaisedStep(cfg, f, s, labels[0], c);
      RaisedRun(cfg, f, Apply(cfg, f, s, labels[0]), labels[1..], t, c);
    }
  }

  /** A call that has raised never returns: whatever its items are told later, it collects nothing more. */
  lemma {:induction false} RaisedForGood(cfg: Config, f: Text -> Vec, s: State, c: nat, labels: seq<Label>, t: State)
    requires Enabled(cfg, s, Raise(c)) && Run(cfg, f, Apply(cfg, f, s, Raise(c)), labels, t)
    ensures c < |t.calls| && t.calls[c].raised && t.calls[c].got == s.calls[c].got && |t.calls[c].got| < t.calls[c].count
    ensures !Enabled(cfg, t, Collect(c))
  {
    RaisedRun(cfg, f, Apply(cfg, f, s, Raise(c)), labels, t, c);
  }

  // ------------------------------------------------------------------
  // Cancelled items
  // ------------------------------------------------------------------

  predicate Withdrawn(fut: Future) { fut.Cancelled? || fut.Notified? }

  lemma {:induction false} WithdrawnStep(cfg: Config, f: Text -> Vec, s: State, l: Label, id: nat)
    requires Placed(s) && Enabled(cfg, s, l) && id < |s.futures| && Withdrawn(s.futures[id])
    ensures id < |Apply(cfg, f, s, l).futures| && Withdrawn(Apply(cfg, f, s, l).futures[id])
  {
    if s.futures[id].Notified? {
      SettledStep(cfg, f, s, l, id);
    } else if l.Settle? {
      CancelledAtSettle(cfg, f, s, l.w, id);
    } else if l.Compose? || l.FailOne? || l.Cancel? {
      CancelledFuture(cfg, f, s, l, id);
    } else {
      CancelledOther(cfg, f, s, l, id);
    }
  }

  lemma {:induction false} CancelledFuture(cfg: Config, f: Text -> Vec, s: State, l: Label, id: nat)
    requires Enabled(cfg, s, l) && (l.Compose? || l.FailOne? || l.Cancel?) && id < |s.futures| && s.futures[id].Cancelled?
    ensures id < |Apply(cfg, f, s, l).futures| && Withdrawn(Apply(cfg, f, s, l).futures[id])
  {
  }

  lemma {:induction false} CancelledAtSettle(cfg: Config, f: Text -> Vec, s: State, w: nat, id: nat)
    requires Placed(s) && Enabled(cfg, s, Settle(w)) && id < |s.futures| && s.futures[id].Cancelled?
    ensures Apply(cfg, f, s, Settle(w)).futures[id] == s.futures[id]
  {
    assert WorkerOk(s.futures, s.workers[w]);
    assert Unsettled(s.workers[w])[0] == s.workers[w].batch[s.workers[w].done];
  }

  lemma {:induction false} CancelledOther(cfg: Config, f: Text -> Vec, s: State, l: Label, id: nat)
    requires Enabled(cfg, s, l) && !l.Settle? && !l.Compose? && !l.FailOne? && !l.Cancel?
    requires id < |s.futures| && s.futures[id].Cancelled?
    ensures id < |Apply(cfg, f, s, l).futures| && Withdrawn(Apply(cfg, f, s, l).futures[id])
  {
  }

  lemma {:induction false} WithdrawnRun(cfg: Config, f: Text -> Vec, s: State, labels: seq<Label>, t: State, id: nat)
    requires cfg.Valid() && Inv(cfg, f, s) && Run(cfg, f, s, labels, t) && id < |s.futures| && Withdrawn(s.futures[id])
    ensures id < |t.futures| && Withdrawn(t.futures[id])
    decreases |labels|
  {
    if labels != [] {
      WithdrawnStep(cfg, f, s, labels[0], id);
      InvStep(cfg, f, s, labels[0]);
      WithdrawnRun(cfg, f, Apply(cfg, f, s, labels[0]), labels[1..], t, id);
    }
  }

  /** Cancelling an item that is still queued keeps it out of every batch, for good; cancelling one that has
      joined a batch, or has been told, changes nothing. */
  lemma {:induction false} CancelExactly(cfg: Config, f: Text -> Vec, s: State, id: nat, labels: seq<Label>, t: State)
    requires cfg.Valid() && Reachable(cfg, f, s) && id < |s.futures|
    requires Run(cfg, f, Apply(cfg, f, s, Cancel(id)), labels, t)
    ensures id in s.live || id in s.background || id in s.leftover ==>
              id < |t.futures| && !t.futures[id].Running? && !t.futures[id].Finished? && id !in Flatten(t.history)
    ensures s.futures[id].Running? || s.futures[id].Finished? ==> Apply(cfg, f, s, Cancel(id)) == s
  {
    if id in s.live || id in s.background || id in s.leftover {
      WithdrawnForGood(cfg, f, s, id, labels, t);
    }
    assert s.futures[id := s.futures[id]] == s.futures;
  }

  lemma {:induction false} WithdrawnForGood(cfg: Config, f: Text -> Vec, s: State, id: nat, labels: seq<Label>, t: State)
    requires cfg.Valid() && Reachable(cfg, f, s) && id < |s.futures| && (id in s.live || id in s.background || id in s.leftover)
    requires Run(cfg, f, Apply(cfg, f, s, Cancel(id)), labels, t)
    ensures id < |t.futures| && Withdrawn(t.futures[id]) && id !in Flatten(t.history)
  {
    var next := Apply(cfg, f, s, Cancel(id));
    CancelledNow(cfg, f, s, id);
    WithdrawnRun(cfg, f, next, labels, t, id);
    InvRun(cfg, f, next, labels, t);
    NeverTaken(cfg, f, t, id);
  }

  lemma {:induction false} CancelledNow(cfg: Config, f: Text -> Vec, s: State, id: nat)
    requires cfg.Valid() && Reachable(cfg, f, s) && id < |s.futures| && (id in s.live || id in s.background || id in s.leftover)
    ensures Inv(cfg, f, Apply(cfg, f, s, Cancel(id))) && Withdrawn(Apply(cfg, f, s, Cancel(id)).futures[id])
  {
    InvReachable(cfg, f, s);
    QueuedWaits(s, id);
    InvStep(cfg, f, s, Cancel(id));
    assert Apply(cfg, f, s, Cancel(id)).futures[id] == CancelFuture(s.futures[id]);
  }

  lemma {:induction false} QueuedWaits(s: State, id: nat)
    requires QueuesOk(s) && (id in s.live || id in s.background || id in s.leftover)
    ensures id < |s.futures| && (s.futures[id].Pending? || s.futures[id].Cancelled?)
  {
  }

  lemma {:induction false} NeverTaken(cfg: Config, f: Text -> Vec, t: State, id: nat)
    requires Inv(cfg, f, t) && id < |t.futures| && Withdrawn(t.futures[id])
    ensures id !in Flatten(t.history)
  {
    TakenOnce(t, id);
  }

  // ------------------------------------------------------------------
  // The reservations, in the settings' own numbers
  // ------------------------------------------------------------------

  /** Live is admitted up to `max_pending_items` in all; background up to that minus the smaller of
      `max_batch_size` and half of it, and in any case a single item. */
  lemma {:induction false} AdmitsExactly(cfg: Config, s: State, texts: seq<Text>)
    requires cfg.Valid()
    ensures var n := |s.live| + |s.background| + |texts|;
            && (Enabled(cfg, s, Admit(texts, Live)) <==> texts != [] && !s.closed && n <= cfg.maxPending)
            && (Enabled(cfg, s, Admit(texts, Background)) <==>
                  && texts != [] && !s.closed
                  && (n == 1 || (n < cfg.maxPending && (n + cfg.maxBatch <= cfg.maxPending || n + cfg.maxPending / 2 <= cfg.maxPending))))
  {
  }

  /** With plenty of both classes waiting, a batch with a background slot carries a quarter of background,
      rounded down but at least one, and live fills the rest. */
  lemma {:induction false} SaturatedQuarter(cfg: Config, fs: seq<Future>, live: seq<nat>, background: seq<nat>, inflight: int)
    requires cfg.Valid() && Known(fs, live) && Known(fs, background) && inflight < cfg.maxBackground
    requires |PendingIn(fs, live)| >= cfg.maxBatch && |PendingIn(fs, background)| >= cfg.maxBatch
    ensures var c := ComposeOf(cfg, fs, live, background, inflight);
            var q := |PendingIn(fs, background[..c.backgroundCut])|;
            && (if cfg.maxBatch < 4 then q == 1 else 4 * q <= cfg.maxBatch < 4 * q + 4)
            && |PendingIn(fs, live[..c.liveCut])| + q == cfg.maxBatch
  {
    FirstSize(cfg, fs, live, background, inflight);
    MiddleSize(cfg, fs, live, background, inflight);
    LastSize(cfg, fs, live, background, inflight);
    ComposeSizes(cfg, fs, live, background, inflight);
    ComposePrefixes(cfg, fs, live, background, inflight);
  }
}
