/** Bounded waiting: how many compositions can pass an uncancelled queued item. */
module SchedulerWaiting {
  import opened SchedulerModel
  import opened SchedulerCompose
  import opened SchedulerPlacement
  import opened SchedulerOrder
  import opened SchedulerResults

  /** How many uncancelled entries stand before `id`. */
  function Ahead(fs: seq<Future>, ids: seq<nat>, id: nat): nat {
    if ids == [] || ids[0] == id then 0
    else (if ids[0] < |fs| && fs[ids[0]].Pending? then 1 else 0) + Ahead(fs, ids[1..], id)
  }

  /** The item is queued and not cancelled. */
  predicate Waits(s: State, cls: Class, id: nat) {
    id < |s.futures| && id in Queue(s, cls) && s.futures[id].Pending?
  }

  function AheadOf(s: State, cls: Class, id: nat): nat {
    Ahead(s.futures, Queue(s, cls), id)
  }

  // ------------------------------------------------------------------
  // Helpers
  // ------------------------------------------------------------------

  lemma {:induction false} AheadSplit(fs: seq<Future>, ids: seq<nat>, k: nat, id: nat)
    requires Known(fs, ids) && k <= |ids| && id !in ids[..k]
    ensures Ahead(fs, ids, id) == |PendingIn(fs, ids[..k])| + Ahead(fs, ids[k..], id)
    decreases k
  {
    if k > 0 {
      assert ids[..k][0] == ids[0];
      assert ids[..k][1..] == ids[1..][..k - 1];
      assert ids[1..][k - 1..] == ids[k..];
      AheadSplit(fs, ids[1..], k - 1, id);
    } else {
      assert ids[k..] == ids;
    }
  }

  /** Appending behind, or cancelling others, never puts more items ahead. */
  lemma {:induction false} AheadMono(fs: seq<Future>, fs': seq<Future>, ids: seq<nat>, more: seq<nat>, id: nat)
    requires Known(fs, ids) && Known(fs', ids) && Known(fs', more) && id in ids
    requires forall i :: 0 <= i < |ids| && fs'[ids[i]].Pending? ==> fs[ids[i]].Pending?
    ensures Known(fs', ids + more) && Ahead(fs', ids + more, id) <= Ahead(fs, ids, id)
  {
    assert (ids + more)[0] == ids[0] && (ids + more)[1..] == ids[1..] + more;
    if ids[0] != id {
      AheadMono(fs, fs', ids[1..], more, id);
    }
  }

  /** If an uncancelled entry survives a composition, the whole reservation went to entries ahead of it. */
  lemma {:induction false} CutPasses(fs: seq<Future>, ids: seq<nat>, k: nat, slots: nat, id: nat)
    requires Known(fs, ids) && k <= |ids| && id !in ids[..k] && id in ids[k..] && fs[id].Pending?
    requires |PendingIn(fs, ids[..k])| >= Min(slots, |PendingIn(fs, ids)|)
    ensures Ahead(fs, ids[k..], id) + slots <= Ahead(fs, ids, id)
  {
    AheadSplit(fs, ids, k, id);
    PendingSplit(fs, ids, k);
    PendingMember(fs, ids[k..], id);
  }

  /** Queue entries are distinct across the popped prefix and the rest. */
  lemma {:induction false} CutIsPopped(s: State, a: nat, b: nat, cls: Class)
    requires a <= |s.live| && b <= |s.background|
    ensures forall id :: id in Queue(s, cls)[..Cutoff(cls, a, b)] ==> id in Popped(s, a, b)
  {
    forall i | 0 <= i < Cutoff(cls, a, b) ensures Queue(s, cls)[i] in Popped(s, a, b) {
      assert Popped(s, a, b)[if cls.Live? then i else a + i] == Queue(s, cls)[i];
    }
  }

  lemma {:induction false} NotInPopped(s: State, a: nat, b: nat, cls: Class, id: nat)
    requires Placed(s) && a <= |s.live| && b <= |s.background|
    requires id in Queue(s, cls)[Cutoff(cls, a, b)..]
    ensures id !in Popped(s, a, b) && id !in Queue(s, cls)[..Cutoff(cls, a, b)]
  {
    CutIsPopped(s, a, b, cls);
    if id in Popped(s, a, b) {
      PoppedOnce(s, a, b, id);
      assert false;
    }
  }

  /** Batch slots that a composition guarantees to one class. */
  function Slots(cfg: Config, cls: Class): nat
    requires cfg.Valid()
  {
    if cls.Live? then cfg.maxBatch - cfg.BackgroundFloor() else cfg.BackgroundFloor()
  }

  /** The composition counts for a class: every one does for live, and for background
      those made while a background worker slot is free. */
  predicate Serves(cfg: Config, s: State, l: Label, cls: Class) {
    l.Compose? && (cls.Live? || s.backgroundInflight < cfg.maxBackground)
  }

  // ------------------------------------------------------------------
  // One step
  // ------------------------------------------------------------------

  lemma {:induction false} WaitsTake(
    s: State, w: nat, a: nat, b: nat, batch: seq<nat>, cls: Class, id: nat, slots: nat)
    requires Placed(s) && w < |s.workers| && a <= |s.live| && b <= |s.background|
    requires Waits(ApplyTake(s, w, a, b, batch), cls, id)
    requires var q := Queue(s, cls);
             |PendingIn(s.futures, q[..Cutoff(cls, a, b)])| >= Min(slots, |PendingIn(s.futures, q)|)
    ensures Waits(s, cls, id)
    ensures QueuesOk(ApplyTake(s, w, a, b, batch))
    ensures AheadOf(ApplyTake(s, w, a, b, batch), cls, id) + slots <= AheadOf(s, cls, id)
  {
    var s' := ApplyTake(s, w, a, b, batch);
    var q := Queue(s, cls);
    var k := Cutoff(cls, a, b);
    QueuesTake(s, w, a, b, batch);
    assert Queue(s', cls) == q[k..];
    NotInPopped(s, a, b, cls, id);
    CutPasses(s.futures, q, k, slots, id);
    AheadMono(s.futures, s'.futures, q[k..], [], id);
    assert q[k..] + [] == q[k..];
  }

  lemma {:induction false} WaitsCompose(cfg: Config, s: State, w: nat, cls: Class, id: nat)
    requires cfg.Valid() && Placed(s) && Enabled(cfg, s, Compose(w))
    requires Waits(ApplyCompose(cfg, s, w), cls, id)
    ensures Waits(s, cls, id) && QueuesOk(ApplyCompose(cfg, s, w))
    ensures AheadOf(ApplyCompose(cfg, s, w), cls, id)
            + (if Serves(cfg, s, Compose(w), cls) then Slots(cfg, cls) else 0) <= AheadOf(s, cls, id)
  {
    var c := ComposeOf(cfg, s.futures, s.live, s.background, s.backgroundInflight);
    ComposeReservations(cfg, s.futures, s.live, s.background, s.backgroundInflight);
    WaitsTake(s, w, c.liveCut, c.backgroundCut, c.Batch(), cls, id,
              if Serves(cfg, s, Compose(w), cls) then Slots(cfg, cls) else 0);
  }

  /** No future becomes pending again. */
  predicate NonePendingAgain(fs: seq<Future>, fs': seq<Future>) {
    |fs| <= |fs'| && forall i :: 0 <= i < |fs| && fs'[i].Pending? ==> fs[i].Pending?
  }

  lemma {:induction false} OneFuture(cfg: Config, f: Text -> Vec, s: State, l: Label)
    requires Enabled(cfg, s, l) && (l.Cancel? || l.Settle? || l.FailOne?)
    ensures NonePendingAgain(s.futures, Apply(cfg, f, s, l).futures)
  {
  }

  lemma {:induction false} SameFutures(cfg: Config, f: Text -> Vec, s: State, l: Label)
    requires Enabled(cfg, s, l) && !l.Compose? && !l.Cancel? && !l.Settle? && !l.FailOne?
    ensures s.futures <= Apply(cfg, f, s, l).futures
  {
  }

  /** Outside compositions no future becomes pending again. */
  lemma {:induction false} OtherFutures(cfg: Config, f: Text -> Vec, s: State, l: Label)
    requires Enabled(cfg, s, l) && !l.Compose?
    ensures NonePendingAgain(s.futures, Apply(cfg, f, s, l).futures)
  {
    if l.Cancel? || l.Settle? || l.FailOne? {
      OneFuture(cfg, f, s, l);
    } else {
      SameFutures(cfg, f, s, l);
    }
  }

  /** Outside compositions a queue only grows at its end, or is emptied by a shutdown. */
  lemma {:induction false} OtherQueues(cfg: Config, f: Text -> Vec, s: State, l: Label, cls: Class)
    requires Enabled(cfg, s, l) && !l.Compose?
    ensures var q := Queue(Apply(cfg, f, s, l), cls);
            if l.FailRemaining? then q == []
            else q == Queue(s, cls) || (l.Admit? && q == Queue(s, cls) + NewIds(|s.items|, |l.texts|))
  {
  }

  lemma {:induction false} WaitsOther(cfg: Config, f: Text -> Vec, s: State, l: Label, cls: Class, id: nat)
    requires Enabled(cfg, s, l) && !l.Compose? && QueuesOk(s) && QueuesOk(Apply(cfg, f, s, l))
    requires Waits(Apply(cfg, f, s, l), cls, id) && id < |s.futures|
    ensures Waits(s, cls, id)
    ensures AheadOf(Apply(cfg, f, s, l), cls, id) <= AheadOf(s, cls, id)
  {
    var s' := Apply(cfg, f, s, l);
    OtherFutures(cfg, f, s, l);
    OtherQueues(cfg, f, s, l, cls);
    var q := Queue(s, cls);
    if Queue(s', cls) == q {
      AheadMono(s.futures, s'.futures, q, [], id);
      assert q + [] == q;
    } else {
      var ids := NewIds(|s.items|, |l.texts|);
      assert id !in ids;
      AheadMono(s.futures, s'.futures, q, ids, id);
    }
  }

  // ------------------------------------------------------------------
  // Whole runs
  // ------------------------------------------------------------------

  /** How many compositions of a run count for a class. */
  function Served(cfg: Config, f: Text -> Vec, s: State, labels: seq<Label>, cls: Class): nat
    decreases |labels|
  {
    if labels == [] || !Enabled(cfg, s, labels[0]) then 0
    else (if Serves(cfg, s, labels[0], cls) then 1 else 0)
         + Served(cfg, f, Apply(cfg, f, s, labels[0]), labels[1..], cls)
  }

  lemma {:induction false} WaitsStep(cfg: Config, f: Text -> Vec, s: State, l: Label, cls: Class, id: nat)
    requires cfg.Valid() && Placed(s) && Enabled(cfg, s, l) && QueuesOk(Apply(cfg, f, s, l))
    requires id < |s.futures| && Waits(Apply(cfg, f, s, l), cls, id)
    ensures Waits(s, cls, id)
    ensures AheadOf(Apply(cfg, f, s, l), cls, id)
            + (if Serves(cfg, s, l, cls) then Slots(cfg, cls) else 0) <= AheadOf(s, cls, id)
  {
    if l.Compose? {
      WaitsCompose(cfg, s, l.w, cls, id);
    } else {
      WaitsOther(cfg, f, s, l, cls, id);
    }
  }

  /** `AheadOf` pays for every composition that counts. */
  ghost predicate Pays(
    cfg: Config, f: Text -> Vec, s: State, labels: seq<Label>, t: State, cls: Class, id: nat, slots: nat)
  {
    && Waits(s, cls, id)
    && AheadOf(t, cls, id) + Served(cfg, f, s, labels, cls) * slots <= AheadOf(s, cls, id)
  }

  lemma {:induction false} PayOnce(slots: nat, later: nat, now: nat, end: nat, n: nat, serves: bool)
    requires end + n * slots <= later && later + (if serves then slots else 0) <= now
    ensures end + ((if serves then 1 else 0) + n) * slots <= now
  {
    assert (1 + n) * slots == slots + n * slots;
  }

  lemma {:induction false} PaysStep(
    cfg: Config, f: Text -> Vec, s: State, s': State, labels: seq<Label>, t: State, cls: Class, id: nat, slots: nat)
    requires labels != [] && Waits(s, cls, id)
    requires Served(cfg, f, s, labels, cls) ==
             (if Serves(cfg, s, labels[0], cls) then 1 else 0) + Served(cfg, f, s', labels[1..], cls)
    requires AheadOf(s', cls, id) + (if Serves(cfg, s, labels[0], cls) then slots else 0) <= AheadOf(s, cls, id)
    requires Pays(cfg, f, s', labels[1..], t, cls, id, slots)
    ensures Pays(cfg, f, s, labels, t, cls, id, slots)
  {
    PayOnce(slots, AheadOf(s', cls, id), AheadOf(s, cls, id), AheadOf(t, cls, id),
            Served(cfg, f, s', labels[1..], cls), Serves(cfg, s, labels[0], cls));
  }

  lemma {:induction false} PaysNothing(cfg: Config, f: Text -> Vec, s: State, cls: Class, id: nat, slots: nat)
    requires Waits(s, cls, id)
    ensures Pays(cfg, f, s, [], s, cls, id, slots)
  {
  }

  lemma {:induction false} FuturesGrow(cfg: Config, f: Text -> Vec, s: State, l: Label)
    requires Enabled(cfg, s, l)
    ensures |s.futures| <= |Apply(cfg, f, s, l).futures|
  {
    if !l.Compose? {
      OtherFutures(cfg, f, s, l);
    }
  }

  lemma {:induction false} WaitsRun(
    cfg: Config, f: Text -> Vec, s: State, labels: seq<Label>, t: State, cls: Class, id: nat, slots: nat)
    requires cfg.Valid() && slots == Slots(cfg, cls) && Inv(cfg, f, s) && Run(cfg, f, s, labels, t)
    requires id < |s.futures| && Waits(t, cls, id)
    ensures Pays(cfg, f, s, labels, t, cls, id, slots)
    decreases |labels|
  {
    if labels == [] {
      PaysNothing(cfg, f, s, cls, id, slots);
    } else {
      InvStep(cfg, f, s, labels[0]);
      FuturesGrow(cfg, f, s, labels[0]);
      WaitsRun(cfg, f, Apply(cfg, f, s, labels[0]), labels[1..], t, cls, id, slots);
      WaitsStep(cfg, f, s, labels[0], cls, id);
      PaysStep(cfg, f, s, Apply(cfg, f, s, labels[0]), labels, t, cls, id, slots);
    }
  }

  /** The item has left its queue for a batch, or was withdrawn by its caller or by a shutdown. */
  predicate TakenOrWithdrawn(s: State, id: nat) {
    && id < |s.futures|
    && (|| id in Flatten(s.history)
        || s.futures[id].Cancelled?
        || s.futures[id].Notified?
        || s.futures[id] == Finished(Closed)
        || id in s.leftover)
  }

  lemma {:induction false} NotWaiting(cfg: Config, f: Text -> Vec, s: State, cls: Class, id: nat)
    requires Inv(cfg, f, s) && id < |s.items| && s.items[id].cls == cls && !Waits(s, cls, id)
    ensures TakenOrWithdrawn(s, id)
  {
    TakenOnce(s, id);
    if s.futures[id].Pending? {
      PendingIsHeld(s, id);
    }
  }

  /** An item nobody has claimed or cancelled is queued or left over. */
  lemma {:induction false} PendingIsHeld(s: State, id: nat)
    requires Placed(s) && id < |s.futures| && s.futures[id].Pending?
    ensures id in s.live || id in s.background || id in s.leftover
  {
    assert OnePlace(s, id);
    CountMember(s.live, id);
    CountMember(s.background, id);
    CountMember(s.leftover, id);
    if InBatches(s.workers, id) > 0 {
      var w := HolderOf(s.workers, id);
      assert false;
    }
  }

  lemma {:induction false} HolderOf(ws: seq<Worker>, id: nat) returns (w: nat)
    requires InBatches(ws, id) > 0
    ensures w < |ws| && id in Unsettled(ws[w])
  {
    CountMember(Unsettled(ws[0]), id);
    if id in Unsettled(ws[0]) {
      w := 0;
    } else {
      var v := HolderOf(ws[1..], id);
      w := v + 1;
    }
  }

  /** Bounded waiting. An uncancelled item with `p` uncancelled items of its class ahead leaves its
      queue within `p / slots + 1` compositions that count for its class, whatever arrives later:
      `slots` is `max_batch_size - background_floor` for live and `background_floor` for background. */
  lemma {:induction false} BoundedWaiting(
    cfg: Config, f: Text -> Vec, s: State, labels: seq<Label>, t: State, cls: Class, id: nat)
    requires cfg.Valid() && cfg.maxBatch >= 2 && Reachable(cfg, f, s) && Waits(s, cls, id)
    requires Run(cfg, f, s, labels, t)
    requires Served(cfg, f, s, labels, cls) >= AheadOf(s, cls, id) / Slots(cfg, cls) + 1
    ensures TakenOrWithdrawn(t, id)
  {
    InvReachable(cfg, f, s);
    InvRun(cfg, f, s, labels, t);
    SlotsPositive(cfg, cls);
    var p, slots := AheadOf(s, cls, id), Slots(cfg, cls);
    if Waits(t, cls, id) {
      WaitsRun(cfg, f, s, labels, t, cls, id, slots);
      Overtaken(p, slots, Served(cfg, f, s, labels, cls));
      assert false;
    }
    ExtendsRun(cfg, f, s, labels, t);
    assert t.items[id] == s.items[id];
    NotWaiting(cfg, f, t, cls, id);
  }

  lemma {:induction false} Overtaken(p: nat, slots: nat, n: nat)
    requires slots > 0 && n >= p / slots + 1
    ensures n * slots > p
  {
    assert p == p / slots * slots + p % slots;
    assert (p / slots + 1) * slots == p / slots * slots + slots;
    assert n * slots >= (p / slots + 1) * slots by {
      MulMono(p / slots + 1, n, slots);
    }
  }

  lemma {:induction false} MulMono(a: nat, b: nat, c: nat)
    requires a <= b
    ensures a * c <= b * c
  {
    assert b * c == a * c + (b - a) * c;
  }

  /** Both classes have at least one reserved slot as soon as a batch holds two items. */
  lemma {:induction false} SlotsPositive(cfg: Config, cls: Class)
    requires cfg.Valid() && cfg.maxBatch >= 2
    ensures Slots(cfg, cls) > 0
  {
  }
}
