/** Conservation: every admitted item is in exactly one place until its future is settled. */
module SchedulerPlacement {
  import opened SchedulerModel
  import opened SchedulerCompose

  /** The items a worker has composed and not yet settled. */
  function Unsettled(w: Worker): seq<nat> {
    match w
    case Encoding(batch) => batch
    case Settling(batch, _, done) => if done <= |batch| then batch[done..] else []
    case _ => []
  }

  /** How often an item occurs among all unsettled batches. */
  function InBatches(ws: seq<Worker>, id: nat): nat {
    if ws == [] then 0 else Count(Unsettled(ws[0]), id) + InBatches(ws[1..], id)
  }

  lemma {:induction false} InBatchesUpdate(ws: seq<Worker>, i: nat, w: Worker, id: nat)
    requires i < |ws|
    ensures InBatches(ws[i := w], id) ==
            InBatches(ws, id) - Count(Unsettled(ws[i]), id) + Count(Unsettled(w), id)
    decreases i
  {
    if i == 0 {
      assert ws[i := w][1..] == ws[1..];
    } else {
      assert ws[i := w][1..] == ws[1..][i - 1 := w];
      InBatchesUpdate(ws[1..], i - 1, w, id);
    }
  }

  lemma {:induction false} InBatchesSame(ws: seq<Worker>, ws': seq<Worker>, id: nat)
    requires |ws| == |ws'|
    requires forall i :: 0 <= i < |ws| ==> Unsettled(ws[i]) == Unsettled(ws'[i])
    ensures InBatches(ws, id) == InBatches(ws', id)
    decreases |ws|
  {
    if ws != [] {
      InBatchesSame(ws[1..], ws'[1..], id);
    }
  }

  lemma {:induction false} InBatchesIdle(ws: seq<Worker>, id: nat)
    requires forall i :: 0 <= i < |ws| ==> Unsettled(ws[i]) == []
    ensures InBatches(ws, id) == 0
  {
    if ws != [] {
      InBatchesIdle(ws[1..], id);
    }
  }

  lemma {:induction false} InBatchesAt(ws: seq<Worker>, i: nat, id: nat)
    requires i < |ws|
    ensures Count(Unsettled(ws[i]), id) <= InBatches(ws, id)
    decreases i
  {
    if i > 0 {
      InBatchesAt(ws[1..], i - 1, id);
    }
  }

  lemma {:induction false} InBatchesTwo(ws: seq<Worker>, i: nat, j: nat, id: nat)
    requires i < |ws| && j < |ws| && i != j
    ensures Count(Unsettled(ws[i]), id) + Count(Unsettled(ws[j]), id) <= InBatches(ws, id)
  {
    InBatchesUpdate(ws, i, Awake, id);
    InBatchesAt(ws[i := Awake], j, id);
  }

  /** In how many places an item is: queued, composed, or waiting to be failed. */
  function Held(s: State, id: nat): nat {
    Count(s.live, id) + Count(s.background, id) + Count(s.leftover, id) + InBatches(s.workers, id)
  }

  predicate Settled(f: Future) { f.Notified? || f.Finished? }

  predicate Waiting(fs: seq<Future>, ids: seq<nat>) {
    forall i :: 0 <= i < |ids| ==> ids[i] < |fs| && (fs[ids[i]].Pending? || fs[ids[i]].Cancelled?)
  }

  predicate AllRunning(fs: seq<Future>, ids: seq<nat>) {
    forall i :: 0 <= i < |ids| ==> ids[i] < |fs| && fs[ids[i]].Running?
  }

  predicate WorkerOk(fs: seq<Future>, w: Worker) {
    && AllRunning(fs, Unsettled(w))
    && (w.Encoding? || w.Settling? ==>
          w.batch != [] && Known(fs, w.batch))
    && (w.Settling? ==> |w.outs| == |w.batch| && w.done <= |w.batch|)
  }

  predicate WorkersOk(fs: seq<Future>, ws: seq<Worker>) {
    forall w :: 0 <= w < |ws| ==> WorkerOk(fs, ws[w])
  }

  /** Exactly one place for an unsettled item, none for a settled one. */
  predicate OnePlace(s: State, id: nat) {
    Held(s, id) == if id < |s.futures| && !Settled(s.futures[id]) then 1 else 0
  }

  ghost predicate Conserved(s: State) {
    forall id: nat :: OnePlace(s, id)
  }

  predicate QueuesOk(s: State) {
    && |s.futures| == |s.items|
    && AllOfClass(s.items, s.live, Live)
    && AllOfClass(s.items, s.background, Background)
    && Waiting(s.futures, s.live)
    && Waiting(s.futures, s.background)
    && Waiting(s.futures, s.leftover)
  }

  ghost predicate Placed(s: State) {
    QueuesOk(s) && WorkersOk(s.futures, s.workers) && Conserved(s)
  }

  lemma {:induction false} PlacedInit(cfg: Config)
    ensures Placed(Init(cfg))
  {
    var s := Init(cfg);
    forall id: nat ensures OnePlace(s, id) {
      InBatchesIdle(s.workers, id);
    }
  }

  lemma {:induction false} NewIdsCount(start: nat, count: nat, id: nat)
    ensures Count(NewIds(start, count), id) == if start <= id < start + count then 1 else 0
    decreases count
  {
    if count > 0 {
      NewIdsCount(start + 1, count - 1, id);
      assert NewIds(start, count)[1..] == NewIds(start + 1, count - 1);
    }
  }

  lemma {:induction false} HeldAdmit(s: State, texts: seq<Text>, cls: Class, id: nat)
    ensures Held(ApplyAdmit(s, texts, cls), id) ==
            Held(s, id) + (if |s.items| <= id < |s.items| + |texts| then 1 else 0)
  {
    var ids := NewIds(|s.items|, |texts|);
    InBatchesSame(s.workers, NotifyAll(s.workers), id);
    NewIdsCount(|s.items|, |texts|, id);
    CountConcat(s.live, ids, id);
    CountConcat(s.background, ids, id);
  }

  lemma {:induction false} ConservedAdmit(s: State, texts: seq<Text>, cls: Class)
    requires Conserved(s) && |s.futures| == |s.items|
    ensures Conserved(ApplyAdmit(s, texts, cls))
  {
    var s' := ApplyAdmit(s, texts, cls);
    forall id: nat ensures OnePlace(s', id) {
      assert OnePlace(s, id);
      HeldAdmit(s, texts, cls, id);
    }
  }

  lemma {:induction false} WorkersAdmit(s: State, texts: seq<Text>, cls: Class)
    requires WorkersOk(s.futures, s.workers)
    ensures WorkersOk(ApplyAdmit(s, texts, cls).futures, ApplyAdmit(s, texts, cls).workers)
  {
    var s' := ApplyAdmit(s, texts, cls);
    forall v | 0 <= v < |s'.workers| ensures WorkerOk(s'.futures, s'.workers[v]) {
      assert WorkerOk(s.futures, s.workers[v]);
    }
  }

  /** Steps that change workers' positions but not what they hold. */
  lemma {:induction false} PlacedWorkers(s: State, s': State)
    requires Placed(s)
    requires s'.items == s.items && s'.futures == s.futures && s'.live == s.live
    requires s'.background == s.background && s'.leftover == s.leftover
    requires |s'.workers| == |s.workers| && WorkersOk(s'.futures, s'.workers)
    requires forall i :: 0 <= i < |s.workers| ==> Unsettled(s'.workers[i]) == Unsettled(s.workers[i])
    ensures Placed(s')
  {
    forall id: nat ensures OnePlace(s', id) {
      assert OnePlace(s, id);
      InBatchesSame(s.workers, s'.workers, id);
    }
  }

  lemma {:induction false} PlacedCancel(s: State, id: nat)
    requires Placed(s) && id < |s.futures|
    ensures Placed(s.(futures := s.futures[id := CancelFuture(s.futures[id])]))
  {
    var s' := s.(futures := s.futures[id := CancelFuture(s.futures[id])]);
    forall other: nat ensures OnePlace(s', other) {
      assert OnePlace(s, other);
    }
  }

  /** An item in one place is in no other. */
  lemma {:induction false} HeldInQueue(s: State, id: nat)
    requires Placed(s) && (id in s.live || id in s.background || id in s.leftover)
    ensures Held(s, id) == 1 && InBatches(s.workers, id) == 0
    ensures forall v :: 0 <= v < |s.workers| ==> id !in Unsettled(s.workers[v])
    ensures Count(s.live, id) + Count(s.background, id) + Count(s.leftover, id) == 1
  {
    CountMember(s.live, id);
    CountMember(s.background, id);
    CountMember(s.leftover, id);
    assert OnePlace(s, id);
    forall v | 0 <= v < |s.workers| ensures id !in Unsettled(s.workers[v]) {
      InBatchesAt(s.workers, v, id);
      CountMember(Unsettled(s.workers[v]), id);
    }
  }

  lemma {:induction false} HeldInBatch(s: State, w: nat, id: nat)
    requires Placed(s) && w < |s.workers| && id in Unsettled(s.workers[w])
    ensures Held(s, id) == 1 && Count(Unsettled(s.workers[w]), id) == 1
    ensures id !in s.live && id !in s.background && id !in s.leftover
    ensures forall v :: 0 <= v < |s.workers| && v != w ==> id !in Unsettled(s.workers[v])
  {
    CountMember(s.live, id);
    CountMember(s.background, id);
    CountMember(s.leftover, id);
    CountMember(Unsettled(s.workers[w]), id);
    InBatchesAt(s.workers, w, id);
    assert OnePlace(s, id);
    forall v | 0 <= v < |s.workers| && v != w ensures id !in Unsettled(s.workers[v]) {
      InBatchesTwo(s.workers, w, v, id);
      CountMember(Unsettled(s.workers[v]), id);
    }
  }

  lemma {:induction false} OtherWorkersOk(fs: seq<Future>, w: Worker, id: nat, f: Future)
    requires WorkerOk(fs, w) && id < |fs| && id !in Unsettled(w)
    ensures WorkerOk(fs[id := f], w)
  {
  }

  lemma {:induction false} HeldSettle(s: State, w: nat, id: nat)
    requires w < |s.workers| && s.workers[w].Settling?
    requires s.workers[w].done < |s.workers[w].batch| == |s.workers[w].outs|
    requires s.workers[w].batch[s.workers[w].done] < |s.futures|
    ensures Held(ApplySettle(s, w), id) ==
            Held(s, id) - (if id == s.workers[w].batch[s.workers[w].done] then 1 else 0)
  {
    var Settling(batch, outs, done) := s.workers[w];
    assert batch[done + 1..] == batch[done..][1..];
    InBatchesUpdate(s.workers, w, Settling(batch, outs, done + 1), id);
  }

  lemma {:induction false} ConservedSettle(s: State, w: nat)
    requires Conserved(s) && w < |s.workers| && WorkerOk(s.futures, s.workers[w])
    requires s.workers[w].Settling? && s.workers[w].done < |s.workers[w].batch|
    ensures Conserved(ApplySettle(s, w))
  {
    var s' := ApplySettle(s, w);
    assert s.workers[w].batch[s.workers[w].done] == Unsettled(s.workers[w])[0];
    forall id: nat ensures OnePlace(s', id) {
      assert OnePlace(s, id);
      HeldSettle(s, w, id);
    }
  }

  lemma {:induction false} OwnSettleOk(fs: seq<Future>, w: Worker, f: Future)
    requires WorkerOk(fs, w) && w.Settling? && w.done < |w.batch|
    requires Count(Unsettled(w), w.batch[w.done]) == 1
    ensures WorkerOk(fs[w.batch[w.done] := f], w.(done := w.done + 1))
  {
    var u := Unsettled(w);
    var u' := w.batch[w.done + 1..];
    assert u' == u[1..];
    CountMember(u', w.batch[w.done]);
    assert WorkerOk(fs, w.(done := w.done + 1));
    OtherWorkersOk(fs, w.(done := w.done + 1), w.batch[w.done], f);
  }

  lemma {:induction false} WorkersSettle(s: State, w: nat)
    requires Placed(s)
    requires w < |s.workers| && s.workers[w].Settling? && s.workers[w].done < |s.workers[w].batch|
    ensures WorkersOk(ApplySettle(s, w).futures, ApplySettle(s, w).workers)
  {
    var s' := ApplySettle(s, w);
    var id := s.workers[w].batch[s.workers[w].done];
    assert id == Unsettled(s.workers[w])[0];
    HeldInBatch(s, w, id);
    forall v | 0 <= v < |s'.workers| ensures WorkerOk(s'.futures, s'.workers[v]) {
      assert WorkerOk(s.futures, s.workers[v]);
      if v == w {
        OwnSettleOk(s.futures, s.workers[w], s'.futures[id]);
      } else {
        OtherWorkersOk(s.futures, s.workers[v], id, s'.futures[id]);
      }
    }
  }

  lemma {:induction false} QueuesSettle(s: State, w: nat)
    requires Placed(s)
    requires w < |s.workers| && s.workers[w].Settling? && s.workers[w].done < |s.workers[w].batch|
    ensures QueuesOk(ApplySettle(s, w))
  {
    HeldInBatch(s, w, Unsettled(s.workers[w])[0]);
  }

  lemma {:induction false} PlacedFailRemaining(s: State)
    requires Placed(s)
    ensures Placed(s.(live := [], background := [], leftover := s.leftover + s.live + s.background,
                      workers := NotifyAll(s.workers)))
  {
    var s' := s.(live := [], background := [], leftover := s.leftover + s.live + s.background,
                 workers := NotifyAll(s.workers));
    forall id: nat ensures OnePlace(s', id) {
      assert OnePlace(s, id);
      InBatchesSame(s.workers, s'.workers, id);
      CountConcat(s.leftover + s.live, s.background, id);
      CountConcat(s.leftover, s.live, id);
    }
  }

  lemma {:induction false} CountRemove(ids: seq<nat>, index: nat, id: nat)
    requires index < |ids|
    ensures Count(ids[..index] + ids[index + 1..], id) == Count(ids, id) - (if ids[index] == id then 1 else 0)
  {
    CountConcat(ids[..index], ids[index + 1..], id);
    CountSplit(ids, index, id);
    assert ids[index..][1..] == ids[index + 1..];
  }

  function ApplyFailOne(s: State, index: nat): State
    requires index < |s.leftover| && s.leftover[index] < |s.futures|
  {
    var id := s.leftover[index];
    s.(futures := s.futures[id := FailFuture(s.futures[id])],
       leftover := s.leftover[..index] + s.leftover[index + 1..])
  }

  lemma {:induction false} ConservedFailOne(s: State, index: nat)
    requires Conserved(s) && Waiting(s.futures, s.leftover) && index < |s.leftover|
    ensures Conserved(ApplyFailOne(s, index))
  {
    var s' := ApplyFailOne(s, index);
    forall id: nat ensures OnePlace(s', id) {
      assert OnePlace(s, id);
      CountRemove(s.leftover, index, id);
    }
  }

  lemma {:induction false} WaitingElsewhere(fs: seq<Future>, ids: seq<nat>, id: nat, settled: Future)
    requires Waiting(fs, ids) && id < |fs| && id !in ids
    ensures Waiting(fs[id := settled], ids)
  {
    forall i | 0 <= i < |ids| ensures ids[i] != id {
      assert ids[i] in ids;
    }
  }

  lemma {:induction false} WaitingRemove(fs: seq<Future>, ids: seq<nat>, index: nat)
    requires Waiting(fs, ids) && index < |ids|
    ensures Waiting(fs, ids[..index] + ids[index + 1..])
  {
    var rest := ids[..index] + ids[index + 1..];
    forall i | 0 <= i < |rest| ensures rest[i] == ids[if i < index then i else i + 1] {
    }
  }

  /** The removed leftover is in no queue afterwards. */
  lemma {:induction false} RemovedFromQueues(s: State, index: nat)
    requires Placed(s) && index < |s.leftover|
    ensures var id := s.leftover[index];
            id !in s.live && id !in s.background && id !in s.leftover[..index] + s.leftover[index + 1..]
  {
    var id := s.leftover[index];
    HeldInQueue(s, id);
    CountRemove(s.leftover, index, id);
    CountMember(s.leftover[..index] + s.leftover[index + 1..], id);
    CountMember(s.leftover, id);
    CountMember(s.live, id);
    CountMember(s.background, id);
  }

  lemma {:induction false} QueuesFailOne(s: State, index: nat)
    requires Placed(s) && index < |s.leftover|
    ensures QueuesOk(ApplyFailOne(s, index))
  {
    var id := s.leftover[index];
    var settled := FailFuture(s.futures[id]);
    RemovedFromQueues(s, index);
    WaitingRemove(s.futures, s.leftover, index);
    WaitingElsewhere(s.futures, s.live, id, settled);
    WaitingElsewhere(s.futures, s.background, id, settled);
    WaitingElsewhere(s.futures, s.leftover[..index] + s.leftover[index + 1..], id, settled);
  }

  lemma {:induction false} WorkersFailOne(s: State, index: nat)
    requires Placed(s) && index < |s.leftover|
    ensures WorkersOk(ApplyFailOne(s, index).futures, s.workers)
  {
    var id := s.leftover[index];
    HeldInQueue(s, id);
    forall v | 0 <= v < |s.workers| ensures WorkerOk(ApplyFailOne(s, index).futures, s.workers[v]) {
      assert WorkerOk(s.futures, s.workers[v]);
      OtherWorkersOk(s.futures, s.workers[v], id, FailFuture(s.futures[id]));
    }
  }

  // ------------------------------------------------------------------
  // Composition
  // ------------------------------------------------------------------

  function Popped(s: State, a: nat, b: nat): seq<nat>
    requires a <= |s.live| && b <= |s.background|
  {
    s.live[..a] + s.background[..b]
  }

  /** `batch` holds the uncancelled ones among the popped entries. */
  ghost predicate IsTaken(s: State, a: nat, b: nat, batch: seq<nat>)
    requires a <= |s.live| && b <= |s.background|
  {
    forall id: nat {:trigger Count(batch, id)} ::
      Count(batch, id) ==
      if id < |s.futures| && s.futures[id].Pending?
      then Count(s.live[..a], id) + Count(s.background[..b], id) else 0
  }

  lemma {:induction false} ComposeTakes(cfg: Config, s: State)
    requires QueuesOk(s)
    ensures var c := ComposeOf(cfg, s.futures, s.live, s.background, s.backgroundInflight);
            IsTaken(s, c.liveCut, c.backgroundCut, c.Batch())
  {
    var fs := s.futures;
    var c := ComposeOf(cfg, fs, s.live, s.background, s.backgroundInflight);
    ComposePrefixes(cfg, fs, s.live, s.background, s.backgroundInflight);
    var a, b, first, middle, last := c.liveCut, c.backgroundCut, c.first, c.middle, c.last;
    forall id: nat
      ensures Count(c.Batch(), id) ==
              if id < |fs| && fs[id].Pending?
              then Count(s.live[..a], id) + Count(s.background[..b], id) else 0
    {
      PendingCount(fs, s.live[..a], id);
      PendingCount(fs, s.background[..b], id);
      CountConcat(first, last, id);
      CountConcat(first + middle, last, id);
      CountConcat(first, middle, id);
    }
  }

  /** A popped entry is in neither remaining queue, and nowhere else. */
  lemma {:induction false} PoppedOnce(s: State, a: nat, b: nat, id: nat)
    requires Placed(s) && a <= |s.live| && b <= |s.background|
    requires id in Popped(s, a, b)
    ensures Count(s.live[..a], id) + Count(s.background[..b], id) == 1
    ensures id !in s.live[a..] && id !in s.background[b..] && id !in s.leftover
    ensures forall v :: 0 <= v < |s.workers| ==> id !in Unsettled(s.workers[v])
    ensures id < |s.futures| && (s.futures[id].Pending? || s.futures[id].Cancelled?)
    ensures Held(s, id) == 1
  {
    assert id in s.live[..a] || id in s.background[..b];
    assert id in s.live || id in s.background;
    HeldInQueue(s, id);
    CountSplit(s.live, a, id);
    CountSplit(s.background, b, id);
    CountMember(s.live[..a], id);
    CountMember(s.background[..b], id);
    CountMember(s.live[a..], id);
    CountMember(s.background[b..], id);
    CountMember(s.leftover, id);
  }

  lemma {:induction false} NotPopped(s: State, a: nat, b: nat, id: nat)
    requires a <= |s.live| && b <= |s.background| && id !in Popped(s, a, b)
    ensures Count(s.live[..a], id) == 0 && Count(s.background[..b], id) == 0
  {
    CountMember(s.live[..a], id);
    CountMember(s.background[..b], id);
    assert forall i :: 0 <= i < a ==> s.live[..a][i] == Popped(s, a, b)[i];
    assert forall i :: 0 <= i < b ==> s.background[..b][i] == Popped(s, a, b)[a + i];
  }

  lemma {:induction false} TakeBatches(ws: seq<Worker>, w: nat, batch: seq<nat>, id: nat)
    requires w < |ws| && ws[w].Window?
    ensures InBatches(NotifyAll(ws)[w := if batch == [] then Awake else Encoding(batch)], id) ==
            InBatches(ws, id) + Count(batch, id)
  {
    InBatchesSame(ws, NotifyAll(ws), id);
    InBatchesUpdate(NotifyAll(ws), w, if batch == [] then Awake else Encoding(batch), id);
  }

  lemma {:induction false} HeldTake(s: State, w: nat, a: nat, b: nat, batch: seq<nat>, id: nat)
    requires w < |s.workers| && s.workers[w].Window? && a <= |s.live| && b <= |s.background|
    ensures Held(ApplyTake(s, w, a, b, batch), id) ==
            Held(s, id) - Count(s.live[..a], id) - Count(s.background[..b], id) + Count(batch, id)
  {
    CountSplit(s.live, a, id);
    CountSplit(s.background, b, id);
    TakeBatches(s.workers, w, batch, id);
  }

  lemma {:induction false} ConservedTake(s: State, w: nat, a: nat, b: nat, batch: seq<nat>)
    requires Placed(s) && w < |s.workers| && s.workers[w].Window? && a <= |s.live| && b <= |s.background|
    requires IsTaken(s, a, b, batch)
    ensures Conserved(ApplyTake(s, w, a, b, batch))
  {
    forall id: nat ensures OnePlace(ApplyTake(s, w, a, b, batch), id) {
      assert OnePlace(s, id);
      HeldTake(s, w, a, b, batch, id);
      if id in Popped(s, a, b) {
        PoppedOnce(s, a, b, id);
      } else {
        NotPopped(s, a, b, id);
      }
    }
  }

  lemma {:induction false} ClaimKeepsWaiting(fs: seq<Future>, popped: seq<nat>, ids: seq<nat>)
    requires Waiting(fs, ids)
    requires forall i :: 0 <= i < |ids| ==> ids[i] !in popped
    ensures Waiting(Claim(fs, popped), ids)
  {
  }

  lemma {:induction false} ClaimKeepsWorker(fs: seq<Future>, popped: seq<nat>, w: Worker)
    requires WorkerOk(fs, w)
    requires forall i :: 0 <= i < |Unsettled(w)| ==> Unsettled(w)[i] !in popped
    ensures WorkerOk(Claim(fs, popped), w)
  {
  }

  lemma {:induction false} QueuesTake(s: State, w: nat, a: nat, b: nat, batch: seq<nat>)
    requires Placed(s) && w < |s.workers| && a <= |s.live| && b <= |s.background|
    ensures QueuesOk(ApplyTake(s, w, a, b, batch))
  {
    var popped := Popped(s, a, b);
    forall id | id in popped ensures id !in s.live[a..] && id !in s.background[b..] && id !in s.leftover {
      PoppedOnce(s, a, b, id);
    }
    ClaimKeepsWaiting(s.futures, popped, s.live[a..]);
    ClaimKeepsWaiting(s.futures, popped, s.background[b..]);
    ClaimKeepsWaiting(s.futures, popped, s.leftover);
  }

  /** Every item of a fresh batch is running. */
  lemma {:induction false} FreshBatchOk(s: State, a: nat, b: nat, batch: seq<nat>)
    requires a <= |s.live| && b <= |s.background| && IsTaken(s, a, b, batch)
    ensures AllRunning(Claim(s.futures, Popped(s, a, b)), batch)
  {
    forall i | 0 <= i < |batch|
      ensures batch[i] < |s.futures| && s.futures[batch[i]].Pending? && batch[i] in Popped(s, a, b)
    {
      CountMember(batch, batch[i]);
      CountMember(s.live[..a], batch[i]);
      CountMember(s.background[..b], batch[i]);
    }
  }

  lemma {:induction false} WorkersTake(s: State, w: nat, a: nat, b: nat, batch: seq<nat>)
    requires Placed(s) && w < |s.workers| && a <= |s.live| && b <= |s.background|
    requires IsTaken(s, a, b, batch)
    ensures WorkersOk(ApplyTake(s, w, a, b, batch).futures, ApplyTake(s, w, a, b, batch).workers)
  {
    var s' := ApplyTake(s, w, a, b, batch);
    FreshBatchOk(s, a, b, batch);
    forall v | 0 <= v < |s'.workers| ensures WorkerOk(s'.futures, s'.workers[v]) {
      if v != w {
        assert WorkerOk(s.futures, s.workers[v]);
        forall id | id in Popped(s, a, b) ensures id !in Unsettled(s.workers[v]) {
          PoppedOnce(s, a, b, id);
        }
        ClaimKeepsWorker(s.futures, Popped(s, a, b), s'.workers[v]);
      }
    }
  }

  lemma {:induction false} PlacedCompose(cfg: Config, s: State, w: nat)
    requires Placed(s) && Enabled(cfg, s, Compose(w))
    ensures Placed(ApplyCompose(cfg, s, w))
  {
    var c := ComposeOf(cfg, s.futures, s.live, s.background, s.backgroundInflight);
    ComposeTakes(cfg, s);
    QueuesTake(s, w, c.liveCut, c.backgroundCut, c.Batch());
    WorkersTake(s, w, c.liveCut, c.backgroundCut, c.Batch());
    ConservedTake(s, w, c.liveCut, c.backgroundCut, c.Batch());
  }

  // ------------------------------------------------------------------
  // Every step
  // ------------------------------------------------------------------

  lemma {:induction false} QueueAdmits(s: State, texts: seq<Text>, own: Class, queue: seq<nat>, cls: Class)
    requires |s.futures| == |s.items| && AllOfClass(s.items, queue, cls) && Waiting(s.futures, queue)
    ensures var queue' := if cls == own then queue + NewIds(|s.items|, |texts|) else queue;
            && AllOfClass(s.items + NewItems(texts, own), queue', cls)
            && Waiting(s.futures + NewFutures(|texts|), queue')
  {
  }

  lemma {:induction false} QueuesAdmit(s: State, texts: seq<Text>, cls: Class)
    requires QueuesOk(s)
    ensures QueuesOk(ApplyAdmit(s, texts, cls))
  {
    var s' := ApplyAdmit(s, texts, cls);
    QueueAdmits(s, texts, cls, s.live, Live);
    QueueAdmits(s, texts, cls, s.background, Background);
    forall i | 0 <= i < |s.leftover|
      ensures s.leftover[i] < |s'.futures| && s'.futures[s.leftover[i]] == s.futures[s.leftover[i]]
    {
    }
  }

  /** The steps that touch no queue and no future. */
  predicate MovesOnly(l: Label) {
    !l.Admit? && !l.Cancel? && !l.Compose? && !l.Settle? && !l.FailRemaining? && !l.FailOne?
  }

  /** A worker whose movement neither adds to nor takes from its unsettled items. */
  predicate HoldsSame(fs: seq<Future>, w: Worker, w': Worker) {
    WorkerOk(fs, w') && Unsettled(w') == Unsettled(w)
  }

  lemma {:induction false} EncodeHolds(cfg: Config, f: Text -> Vec, s: State, l: Label, v: nat)
    requires WorkersOk(s.futures, s.workers) && l.Encode? && Enabled(cfg, s, l) && v < |s.workers|
    ensures HoldsSame(s.futures, s.workers[v], Apply(cfg, f, s, l).workers[v])
  {
    assert WorkerOk(s.futures, s.workers[v]);
  }

  lemma {:induction false} IdleHolds(cfg: Config, f: Text -> Vec, s: State, l: Label, v: nat)
    requires WorkersOk(s.futures, s.workers) && Enabled(cfg, s, l) && v < |s.workers|
    requires l.Park? || l.OpenWindow? || l.Exit?
    ensures HoldsSame(s.futures, s.workers[v], Apply(cfg, f, s, l).workers[v])
  {
    assert WorkerOk(s.futures, s.workers[v]);
  }

  lemma {:induction false} ReleaseHolds(cfg: Config, f: Text -> Vec, s: State, l: Label, v: nat)
    requires WorkersOk(s.futures, s.workers) && l.Release? && Enabled(cfg, s, l) && v < |s.workers|
    ensures HoldsSame(s.futures, s.workers[v], Apply(cfg, f, s, l).workers[v])
  {
    assert WorkerOk(s.futures, s.workers[v]);
  }

  lemma {:induction false} OtherHolds(cfg: Config, f: Text -> Vec, s: State, l: Label, v: nat)
    requires WorkersOk(s.futures, s.workers) && Enabled(cfg, s, l) && v < |s.workers|
    requires l.Start? || l.Close? || l.Collect? || l.Raise?
    requires l.Start? ==> s.workers[v].NotStarted?
    ensures HoldsSame(s.futures, s.workers[v], Apply(cfg, f, s, l).workers[v])
  {
    assert WorkerOk(s.futures, s.workers[v]);
  }

  lemma {:induction false} MovesKeep(cfg: Config, f: Text -> Vec, s: State, l: Label)
    requires Enabled(cfg, s, l) && MovesOnly(l)
    ensures var s' := Apply(cfg, f, s, l);
            && s'.items == s.items && s'.futures == s.futures && s'.live == s.live
            && s'.background == s.background && s'.leftover == s.leftover && |s'.workers| == |s.workers|
  {
  }

  lemma {:induction false} PlacedMove(cfg: Config, f: Text -> Vec, s: State, l: Label)
    requires Placed(s) && Enabled(cfg, s, l) && MovesOnly(l)
    requires l.Start? ==> forall i :: 0 <= i < |s.workers| ==> s.workers[i].NotStarted?
    ensures Placed(Apply(cfg, f, s, l))
  {
    var s' := Apply(cfg, f, s, l);
    MovesKeep(cfg, f, s, l);
    forall v | 0 <= v < |s'.workers|
      ensures HoldsSame(s.futures, s.workers[v], s'.workers[v])
    {
      if l.Encode? {
        EncodeHolds(cfg, f, s, l, v);
      } else if l.Release? {
        ReleaseHolds(cfg, f, s, l, v);
      } else if l.Park? || l.OpenWindow? || l.Exit? {
        IdleHolds(cfg, f, s, l, v);
      } else {
        OtherHolds(cfg, f, s, l, v);
      }
    }
    PlacedWorkers(s, s');
  }

  /** Every step keeps each item in exactly one place. */
  lemma {:induction false} PlacedStep(cfg: Config, f: Text -> Vec, s: State, l: Label)
    requires Placed(s) && Enabled(cfg, s, l)
    requires l.Start? ==> forall i :: 0 <= i < |s.workers| ==> s.workers[i].NotStarted?
    ensures Placed(Apply(cfg, f, s, l))
  {
    match l
    case Admit(texts, cls) =>
      QueuesAdmit(s, texts, cls);
      ConservedAdmit(s, texts, cls);
      WorkersAdmit(s, texts, cls);
    case Cancel(id) => PlacedCancel(s, id);
    case Compose(w) => PlacedCompose(cfg, s, w);
    case Settle(w) =>
      ConservedSettle(s, w);
      QueuesSettle(s, w);
      WorkersSettle(s, w);
    case FailRemaining => PlacedFailRemaining(s);
    case FailOne(index) =>
      ConservedFailOne(s, index);
      QueuesFailOne(s, index);
      WorkersFailOne(s, index);
    case _ => PlacedMove(cfg, f, s, l);
  }
}
