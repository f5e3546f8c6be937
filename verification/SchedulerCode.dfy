/** The scheduler's critical sections as imperative code, each proved to be a step of the machine. */
module SchedulerCode {
  import opened SchedulerModel
  import opened SchedulerCompose
  import opened SchedulerPlacement

  /** What one pass of the admission loop decides. */
  datatype Admission = Admitted | Oversized | Refused | Saturated | Wait

  predicate Distinct(ids: seq<nat>) {
    forall i, j :: 0 <= i < j < |ids| ==> ids[i] != ids[j]
  }

  function Room(maxBatch: nat, taken: nat, capacity: int): nat {
    if taken >= maxBatch || capacity <= 0 then 0
    else if capacity <= maxBatch - taken then capacity
    else maxBatch - taken
  }

  // ------------------------------------------------------------------
  // Facts about popping
  // ------------------------------------------------------------------

  lemma {:induction false} ClaimTwice(fs: seq<Future>, a: seq<nat>, b: seq<nat>)
    requires forall i :: 0 <= i < |b| ==> b[i] !in a
    ensures Claim(Claim(fs, a), b) == Claim(fs, a + b)
  {
  }

  lemma {:induction false} ClaimPermuted(fs: seq<Future>, a: seq<nat>, b: seq<nat>)
    requires forall id :: id in a <==> id in b
    ensures Claim(fs, a) == Claim(fs, b)
  {
  }

  lemma {:induction false} Agree(fs: seq<Future>, fs': seq<Future>, ids: seq<nat>, capacity: nat)
    requires Known(fs, ids) && Known(fs', ids)
    requires forall i :: 0 <= i < |ids| ==> fs[ids[i]] == fs'[ids[i]]
    ensures PendingIn(fs, ids) == PendingIn(fs', ids) && Cut(fs, ids, capacity) == Cut(fs', ids, capacity)
  {
    if ids != [] {
      Agree(fs, fs', ids[1..], if capacity == 0 then 0 else if fs[ids[0]].Pending? then capacity - 1 else capacity);
    }
  }

  lemma {:induction false} CountDistinct(ids: seq<nat>)
    requires forall i :: 0 <= i < |ids| ==> Count(ids, ids[i]) == 1
    ensures Distinct(ids)
  {
    forall i, j | 0 <= i < j < |ids| ensures ids[i] != ids[j] {
      CountSplit(ids, i + 1, ids[i]);
      CountMember(ids[..i + 1], ids[i]);
      CountMember(ids[i + 1..], ids[i]);
      assert ids[..i + 1][i] == ids[i] && ids[i + 1..][j - i - 1] == ids[j];
    }
  }

  lemma {:induction false} PlacedDistinct(s: State)
    requires Placed(s)
    ensures Distinct(s.live) && Distinct(s.background)
    ensures forall i :: 0 <= i < |s.background| ==> s.background[i] !in s.live
  {
    forall i | 0 <= i < |s.live| ensures Count(s.live, s.live[i]) == 1 {
      CountMember(s.live, s.live[i]);
      HeldInQueue(s, s.live[i]);
    }
    forall i | 0 <= i < |s.background| ensures Count(s.background, s.background[i]) == 1 {
      CountMember(s.background, s.background[i]);
      HeldInQueue(s, s.background[i]);
    }
    CountDistinct(s.live);
    CountDistinct(s.background);
  }

  /** The effect of taking from one queue. */
  datatype Take = Take(queue: seq<nat>, futures: seq<Future>, batch: seq<nat>)

  /** Pop up to `capacity` uncancelled entries into the batch; cancelled ones are dropped. */
  function TakeOf(maxBatch: nat, fs: seq<Future>, q: seq<nat>, batch: seq<nat>, capacity: int): (r: Take)
    requires Known(fs, q)
    ensures |r.queue| <= |q| && |r.futures| == |fs|
    decreases |q|
  {
    if |batch| >= maxBatch || capacity <= 0 || q == [] then Take(q, fs, batch)
    else if fs[q[0]].Pending? then TakeOf(maxBatch, fs[q[0] := Running], q[1..], batch + [q[0]], capacity - 1)
    else TakeOf(maxBatch, fs[q[0] := Notified], q[1..], batch, capacity)
  }

  /** The same in one go: a prefix is popped, claimed, and its uncancelled part appended. */
  function TakeAtOnce(maxBatch: nat, fs: seq<Future>, q: seq<nat>, batch: seq<nat>, capacity: int): Take
    requires Known(fs, q)
  {
    var k := Cut(fs, q, Room(maxBatch, |batch|, capacity));
    Take(q[k..], Claim(fs, q[..k]), batch + PendingIn(fs, q[..k]))
  }

  lemma {:induction false} PopFirst(fs: seq<Future>, q: seq<nat>, k: nat)
    requires Known(fs, q) && q != [] && Distinct(q) && k <= |q[1..]|
    ensures var fs' := fs[q[0] := if fs[q[0]].Pending? then Running else Notified];
            Claim(fs', q[1..][..k]) == Claim(fs, q[..k + 1])
  {
    assert q[..k + 1] == [q[0]] + q[1..][..k];
    assert forall i :: 0 <= i < k ==> q[1..][..k][i] == q[i + 1];
  }

  lemma {:induction false} PendingFirst(fs: seq<Future>, q: seq<nat>, k: nat)
    requires Known(fs, q) && q != [] && k <= |q[1..]|
    ensures PendingIn(fs, q[..k + 1]) == (if fs[q[0]].Pending? then [q[0]] else []) + PendingIn(fs, q[1..][..k])
  {
    assert q[..k + 1][1..] == q[1..][..k];
  }

  lemma {:induction false} TakenAtOnce(maxBatch: nat, fs: seq<Future>, q: seq<nat>, batch: seq<nat>, capacity: int)
    requires Known(fs, q) && Distinct(q)
    ensures TakeOf(maxBatch, fs, q, batch, capacity) == TakeAtOnce(maxBatch, fs, q, batch, capacity)
    decreases |q|
  {
    if |batch| >= maxBatch || capacity <= 0 || q == [] {
      assert q[0..] == q && q[..0] == [] && Claim(fs, []) == fs && batch + [] == batch;
    } else {
      var first := if fs[q[0]].Pending? then [q[0]] else [];
      var fs' := fs[q[0] := if fs[q[0]].Pending? then Running else Notified];
      TakenAtOnce(maxBatch, fs', q[1..], batch + first, capacity - |first|);
      TakeFirst(maxBatch, fs, q, batch, capacity, first, fs');
      assert batch + [] == batch;
    }
  }

  lemma {:induction false} CutFirst(
    maxBatch: nat, fs: seq<Future>, q: seq<nat>, taken: nat, capacity: int, first: nat, k: nat)
    requires Known(fs, q) && q != [] && taken < maxBatch && capacity > 0
    requires first == if fs[q[0]].Pending? then 1 else 0
    requires k == Cut(fs, q[1..], Room(maxBatch, taken + first, capacity - first))
    ensures Cut(fs, q, Room(maxBatch, taken, capacity)) == k + 1
  {
  }

  lemma {:induction false} TakeFirst(
    maxBatch: nat, fs: seq<Future>, q: seq<nat>, batch: seq<nat>, capacity: int, first: seq<nat>, fs': seq<Future>)
    requires Known(fs, q) && Distinct(q) && q != [] && |batch| < maxBatch && capacity > 0
    requires first == if fs[q[0]].Pending? then [q[0]] else []
    requires fs' == fs[q[0] := if fs[q[0]].Pending? then Running else Notified]
    ensures TakeAtOnce(maxBatch, fs, q, batch, capacity) ==
            TakeAtOnce(maxBatch, fs', q[1..], batch + first, capacity - |first|)
  {
    var room := Room(maxBatch, |batch + first|, capacity - |first|);
    var k := Cut(fs, q[1..], room);
    CutFirst(maxBatch, fs, q, |batch|, capacity, |first|, k);
    Agree(fs, fs', q[1..], room);
    SameTake(fs, q, batch, first, fs', k);
  }

  lemma {:induction false} SameTake(
    fs: seq<Future>, q: seq<nat>, batch: seq<nat>, first: seq<nat>, fs': seq<Future>, k: nat)
    requires Known(fs, q) && Distinct(q) && q != [] && k <= |q[1..]|
    requires first == if fs[q[0]].Pending? then [q[0]] else []
    requires fs' == fs[q[0] := if fs[q[0]].Pending? then Running else Notified]
    ensures Known(fs', q[1..][..k])
    ensures Take(q[k + 1..], Claim(fs, q[..k + 1]), batch + PendingIn(fs, q[..k + 1])) ==
            Take(q[1..][k..], Claim(fs', q[1..][..k]), batch + first + PendingIn(fs', q[1..][..k]))
  {
    Agree(fs, fs', q[1..][..k], 0);
    PopFirst(fs, q, k);
    PendingFirst(fs, q, k);
    assert batch + (first + PendingIn(fs, q[1..][..k])) == batch + first + PendingIn(fs, q[1..][..k]);
  }

  /** The three takes of one composition, each from where the previous one left off. */
  ghost predicate ThreeTakes(cfg: Config, fs: seq<Future>, live: seq<nat>, background: seq<nat>, inflight: int,
                             first: Take, middle: Take, last: Take)
  {
    && Known(fs, live)
    && first == TakeOf(cfg.maxBatch, fs, live, [], LiveCapacity(cfg, BackgroundAdmissible(cfg, background, inflight)))
    && Known(first.futures, background)
    && middle == (if BackgroundAdmissible(cfg, background, inflight)
                  then TakeOf(cfg.maxBatch, first.futures, background, first.batch, cfg.maxBatch - |first.batch|)
                  else Take(background, first.futures, first.batch))
    && Known(middle.futures, first.queue)
    && last == TakeOf(cfg.maxBatch, middle.futures, first.queue, middle.batch, cfg.maxBatch - |middle.batch|)
  }

  /** The popping loop: cancelled entries are dropped before they are given a position. */
  method PopInto(maxBatch: nat, fs: seq<Future>, q: seq<nat>, batch: seq<nat>, capacity: int)
    returns (queue: seq<nat>, futures: seq<Future>, taken: seq<nat>)
    requires Known(fs, q)
    ensures Take(queue, futures, taken) == TakeOf(maxBatch, fs, q, batch, capacity)
  {
    queue, futures, taken := q, fs, batch;
    var left := capacity;
    while |taken| < maxBatch && left > 0 && queue != []
      invariant Known(futures, queue)
      invariant TakeOf(maxBatch, futures, queue, taken, left) == TakeOf(maxBatch, fs, q, batch, capacity)
      decreases |queue|
    {
      var id := queue[0];
      queue := queue[1..];
      if futures[id].Pending? {
        futures := futures[id := Running];
        taken := taken + [id];
        left := left - 1;
      } else {
        futures := futures[id := Notified];
      }
    }
  }

  /** Live first, then background while a slot is free, then live again. */
  method FillBatch(cfg: Config, fs: seq<Future>, liveQueue: seq<nat>, backgroundQueue: seq<nat>, inflight: int,
                   ghost first: Take, ghost middle: Take, ghost last: Take)
    returns (live: seq<nat>, background: seq<nat>, futures: seq<Future>, batch: seq<nat>)
    requires ThreeTakes(cfg, fs, liveQueue, backgroundQueue, inflight, first, middle, last)
    ensures batch == last.batch && futures == last.futures && live == last.queue && background == middle.queue
  {
    var allow := backgroundQueue != [] && inflight < cfg.maxBackground;
    var reserved := if allow then cfg.BackgroundFloor() else 0;
    var liveCapacity := if cfg.maxBatch > reserved then cfg.maxBatch - reserved else 0;
    background := backgroundQueue;
    live, futures, batch := PopInto(cfg.maxBatch, fs, liveQueue, [], liveCapacity);
    if allow {
      background, futures, batch := PopInto(cfg.maxBatch, futures, background, batch, cfg.maxBatch - |batch|);
    }
    live, futures, batch := PopInto(cfg.maxBatch, futures, live, batch, cfg.maxBatch - |batch|);
  }

  /** A batch that is not empty occupies its worker, and a background slot if it carries any. */
  method ClaimCapacity(items: seq<Item>, batch: seq<nat>, busy: int, inflight: int) returns (busy': int, inflight': int)
    ensures busy' == (if batch == [] then busy else busy + 1)
    ensures inflight' == inflight + (if CarriesBackground(items, batch) then 1 else 0)
  {
    busy', inflight' := busy, inflight;
    if batch != [] {
      busy' := busy + 1;
      if CarriesBackground(items, batch) {
        inflight' := inflight + 1;
      }
    }
  }

  /** The appending loop of one admission. */
  method AppendAll(items: seq<Item>, futures: seq<Future>, texts: seq<Text>, cls: Class)
    returns (items': seq<Item>, futures': seq<Future>, ids: seq<nat>)
    ensures items' == items + NewItems(texts, cls)
    ensures futures' == futures + NewFutures(|texts|)
    ensures ids == NewIds(|items|, |texts|)
  {
    items', futures', ids := items, futures, [];
    var i := 0;
    while i < |texts|
      invariant 0 <= i <= |texts|
      invariant items' == items + NewItems(texts, cls)[..i]
      invariant futures' == futures + NewFutures(i)
      invariant ids == NewIds(|items|, i)
    {
      ids := ids + [|items'|];
      items' := items' + [Item(texts[i], cls)];
      futures' := futures' + [Pending];
      i := i + 1;
    }
  }

  // ------------------------------------------------------------------
  // The object
  // ------------------------------------------------------------------

  class EmbeddingScheduler {
    const cfg: Config
    var items: seq<Item>
    var futures: seq<Future>
    var live: seq<nat>
    var background: seq<nat>
    var busy: int
    var backgroundInflight: int
    var closed: bool
    var drain: bool
    ghost var machine: State

    /** The fields are those of the machine. */
    ghost predicate Mirrors()
      reads this
    {
      && items == machine.items
      && futures == machine.futures
      && live == machine.live
      && background == machine.background
      && busy == machine.busy
      && backgroundInflight == machine.backgroundInflight
      && closed == machine.closed
      && drain == machine.drain
    }

    ghost predicate Valid()
      reads this
    {
      cfg.Valid() && Mirrors() && Placed(machine)
    }

    constructor (cfg: Config)
      requires cfg.Valid()
      ensures Valid() && this.cfg == cfg && machine == Init(cfg)
    {
      this.cfg := cfg;
      items, futures, live, background := [], [], [], [];
      busy, backgroundInflight, closed, drain := 0, 0, false, true;
      machine := Init(cfg);
      PlacedInit(cfg);
    }

    /** One pass of the admission loop; `expired` says whether the caller's deadline has passed. */
    method TryAdmit(texts: seq<Text>, cls: Class, expired: bool, ghost f: Text -> Vec) returns (r: Admission)
      requires Valid() && texts != []
      modifies this
      ensures Valid()
      ensures r.Admitted? <==> Enabled(cfg, old(machine), Admit(texts, cls))
      ensures machine == if r.Admitted? then Apply(cfg, f, old(machine), Admit(texts, cls)) else old(machine)
      ensures r.Oversized? <==> |texts| > cfg.PendingLimit(cls)
      ensures r.Refused? <==> |texts| <= cfg.PendingLimit(cls) && old(closed)
      ensures r.Saturated? ==> expired
      ensures r.Wait? ==> !expired
    {
      var limit := cfg.PendingLimit(cls);
      if |texts| > limit {
        return Oversized;
      }
      if closed {
        return Refused;
      }
      if |live| + |background| + |texts| > limit {
        return if expired then Saturated else Wait;
      }
      ghost var before := machine;
      PlacedStep(cfg, f, before, Admit(texts, cls));
      var ids;
      items, futures, ids := AppendAll(items, futures, texts, cls);
      if cls.Live? {
        live := live + ids;
      } else {
        background := background + ids;
      }
      machine := Apply(cfg, f, before, Admit(texts, cls));
      r := Admitted;
    }

    /** Compose one physical batch for worker `w` and claim its capacity, under one lock. */
    method ComposeLocked(w: nat, ghost f: Text -> Vec) returns (batch: seq<nat>)
      requires Valid() && Enabled(cfg, machine, Compose(w))
      modifies this
      ensures Valid() && machine == Apply(cfg, f, old(machine), Compose(w))
      ensures batch == ComposeOf(cfg, old(futures), old(live), old(background), old(backgroundInflight)).Batch()
    {
      ghost var first, middle, last, t := TakesCompose(cfg, f, machine, w);
      var live', background', futures';
      live', background', futures', batch := FillBatch(
        cfg, futures, live, background, backgroundInflight, first, middle, last);
      var busy', inflight' := ClaimCapacity(items, batch, busy, backgroundInflight);
      machine := t;
      live, background, futures := live', background', futures';
      busy, backgroundInflight := busy', inflight';
    }

    /** `_fail_remaining` empties both queues; the leftovers are failed outside the lock. */
    method FailRemaining(ghost f: Text -> Vec) returns (leftover: seq<nat>)
      requires Valid() && closed
      modifies this
      ensures Valid() && machine == Apply(cfg, f, old(machine), Label.FailRemaining)
      ensures leftover == old(live) + old(background)
    {
      leftover := live + background;
      live, background := [], [];
      PlacedStep(cfg, f, machine, Label.FailRemaining);
      machine := Apply(cfg, f, machine, Label.FailRemaining);
    }

    /** Worker `w` has completed the first `i` futures of its batch, `i` steps after `start`. */
    ghost predicate SettledThrough(w: nat, batch: seq<nat>, outs: seq<Outcome>, i: nat, f: Text -> Vec, start: State)
      reads this
    {
      && Valid() && i <= |batch| == |outs|
      && w < |machine.workers| && machine.workers[w] == Settling(batch, outs, i)
      && Run(cfg, f, start, Repeat(Settle(w), i), machine)
      && live == start.live && background == start.background
      && SettledUpTo(futures, batch, outs, i)
    }

    /** Complete the futures of worker `w`'s batch one by one, each with its own outcome. */
    method SettleBatch(w: nat, batch: seq<nat>, outs: seq<Outcome>, ghost f: Text -> Vec)
      requires Valid() && w < |machine.workers| && machine.workers[w] == Settling(batch, outs, 0) && |batch| == |outs|
      modifies this
      ensures SettledThrough(w, batch, outs, |batch|, f, old(machine))
    {
      ghost var start := machine;
      var i := 0;
      while i < |batch|
        invariant 0 <= i <= |batch| && SettledThrough(w, batch, outs, i, f, start)
      {
        SettleNext(w, batch, outs, i, f, start);
        i := i + 1;
      }
    }

    /** `_settle` for the next future of a batch. */
    method SettleNext(w: nat, batch: seq<nat>, outs: seq<Outcome>, i: nat, ghost f: Text -> Vec, ghost start: State)
      requires i < |batch| && SettledThrough(w, batch, outs, i, f, start)
      modifies this
      ensures Enabled(cfg, old(machine), Settle(w)) && machine == Apply(cfg, f, old(machine), Settle(w))
      ensures SettledThrough(w, batch, outs, i + 1, f, start)
    {
      var id := batch[i];
      SettleOne(cfg, f, machine, w);
      RunSnoc(cfg, f, start, Repeat(Settle(w), i), machine, Settle(w));
      if futures[id].Pending? || futures[id].Running? {
        futures := futures[id := Finished(outs[i])];
      }
      machine := Apply(cfg, f, machine, Settle(w));
    }
  }

  function Repeat(l: Label, n: nat): seq<Label> {
    if n == 0 then [] else Repeat(l, n - 1) + [l]
  }

  /** The first `n` futures of a batch are completed, each with its own outcome. */
  predicate SettledUpTo(fs: seq<Future>, batch: seq<nat>, outs: seq<Outcome>, n: nat) {
    && n <= |batch| == |outs|
    && forall i :: 0 <= i < n ==> batch[i] < |fs| && fs[batch[i]] == Finished(outs[i])
  }

  lemma {:induction false} SettleOne(cfg: Config, f: Text -> Vec, s: State, w: nat)
    requires Placed(s) && w < |s.workers| && s.workers[w].Settling? && s.workers[w].done < |s.workers[w].batch|
    requires SettledUpTo(s.futures, s.workers[w].batch, s.workers[w].outs, s.workers[w].done)
    ensures Enabled(cfg, s, Settle(w)) && Placed(Apply(cfg, f, s, Settle(w)))
    ensures var Settling(batch, outs, done) := s.workers[w];
            var t := Apply(cfg, f, s, Settle(w));
            && t == s.(futures := s.futures[batch[done] := Finished(outs[done])],
                       workers := s.workers[w := Settling(batch, outs, done + 1)])
            && SettledUpTo(t.futures, batch, outs, done + 1)
            && s.futures[batch[done]].Running?
  {
    var Settling(batch, outs, done) := s.workers[w];
    assert WorkerOk(s.futures, s.workers[w]);
    assert Unsettled(s.workers[w])[0] == batch[done];
    PlacedStep(cfg, f, s, Settle(w));
  }

  /** The queue's own entries are the same in both. */
  predicate Alike(fs: seq<Future>, fs': seq<Future>, q: seq<nat>) {
    Known(fs, q) && Known(fs', q) && forall i :: 0 <= i < |q| ==> fs[q[i]] == fs'[q[i]]
  }

  lemma {:induction false} TakeAlike(maxBatch: nat, fs: seq<Future>, fs': seq<Future>, q: seq<nat>, batch: seq<nat>, k: nat)
    requires Alike(fs, fs', q) && Distinct(q) && |batch| <= maxBatch && k == Cut(fs, q, maxBatch - |batch|)
    ensures TakeOf(maxBatch, fs', q, batch, maxBatch - |batch|) ==
            Take(q[k..], Claim(fs', q[..k]), batch + PendingIn(fs, q[..k]))
  {
    TakenAtOnce(maxBatch, fs', q, batch, maxBatch - |batch|);
    Agree(fs, fs', q, maxBatch - |batch|);
    Agree(fs, fs', q[..k], 0);
  }

  lemma {:induction false} ClaimAlike(fs: seq<Future>, popped: seq<nat>, q: seq<nat>)
    requires Waiting(fs, q) && forall i :: 0 <= i < |q| ==> q[i] !in popped
    ensures Alike(fs, Claim(fs, popped), q) && Waiting(Claim(fs, popped), q)
  {
  }

  lemma {:induction false} UntouchedBackground(s: State, k: nat)
    requires Placed(s) && k <= |s.live|
    ensures var fs := Claim(s.futures, s.live[..k]);
            Alike(s.futures, fs, s.background) && Waiting(fs, s.background) && Distinct(s.background)
  {
    PlacedDistinct(s);
    assert forall i :: 0 <= i < |s.background| ==> s.background[i] !in s.live[..k];
    ClaimAlike(s.futures, s.live[..k], s.background);
  }

  lemma {:induction false} UntouchedLive(s: State, k: nat, b: nat)
    requires Placed(s) && k <= |s.live| && b <= |s.background|
    ensures var fs := Claim(s.futures, s.live[..k] + s.background[..b]);
            Alike(s.futures, fs, s.live[k..]) && Waiting(fs, s.live[k..]) && Distinct(s.live[k..])
  {
    PlacedDistinct(s);
    var popped := s.live[..k] + s.background[..b];
    var q := s.live[k..];
    forall i | 0 <= i < |q| ensures q[i] !in popped {
      assert q[i] == s.live[k + i];
    }
    ClaimAlike(s.futures, popped, q);
  }

  /** The three takes together pop one prefix of each queue. */
  lemma {:induction false} Reassemble(s: State, k: nat, b: nat, a: nat)
    requires Placed(s) && k <= a <= |s.live| && b <= |s.background|
    ensures Claim(Claim(s.futures, s.live[..k] + s.background[..b]), s.live[k..][..a - k]) ==
            Claim(s.futures, s.live[..a] + s.background[..b])
    ensures s.live[k..][a - k..] == s.live[a..]
  {
    PlacedDistinct(s);
    var x, y, z := s.live[..k], s.background[..b], s.live[k..][..a - k];
    forall i | 0 <= i < |z| ensures z[i] !in x + y {
      assert z[i] == s.live[k + i];
    }
    ClaimTwice(s.futures, x + y, z);
    assert s.live[..a] == x + z;
    ClaimPermuted(s.futures, x + y + z, s.live[..a] + y);
  }

  // The three takes of one composition, each from where the previous one left off.

  function LiveTake(cfg: Config, s: State): Take
    requires QueuesOk(s)
  {
    TakeOf(cfg.maxBatch, s.futures, s.live, [],
           LiveCapacity(cfg, BackgroundAdmissible(cfg, s.background, s.backgroundInflight)))
  }

  lemma {:induction false} FirstTake(cfg: Config, s: State)
    requires cfg.Valid() && Placed(s)
    ensures Distinct(s.live)
    ensures var c := ComposeOf(cfg, s.futures, s.live, s.background, s.backgroundInflight);
            var k := Cut(s.futures, s.live, LiveCapacity(cfg, BackgroundAdmissible(cfg, s.background, s.backgroundInflight)));
            LiveTake(cfg, s) == Take(s.live[k..], Claim(s.futures, s.live[..k]), c.first)
  {
    PlacedDistinct(s);
    var capacity := LiveCapacity(cfg, BackgroundAdmissible(cfg, s.background, s.backgroundInflight));
    TakenAtOnce(cfg.maxBatch, s.futures, s.live, [], capacity);
    var k := Cut(s.futures, s.live, capacity);
    assert [] + PendingIn(s.futures, s.live[..k]) == PendingIn(s.futures, s.live[..k]);
  }

  /** What the batch and the futures are after the optional background take. */
  function MiddleTake(cfg: Config, s: State): Take
    requires QueuesOk(s) && Known(LiveTake(cfg, s).futures, s.background)
  {
    var first := LiveTake(cfg, s);
    if BackgroundAdmissible(cfg, s.background, s.backgroundInflight)
    then TakeOf(cfg.maxBatch, first.futures, s.background, first.batch, cfg.maxBatch - |first.batch|)
    else Take(s.background, first.futures, first.batch)
  }

  lemma {:induction false} SecondTake(cfg: Config, s: State)
    requires cfg.Valid() && Placed(s)
    ensures var first := LiveTake(cfg, s);
            && Waiting(first.futures, s.background) && Distinct(s.background)
            && var c := ComposeOf(cfg, s.futures, s.live, s.background, s.backgroundInflight);
            var k := |s.live| - |first.queue|;
            && k <= |s.live|
            && MiddleTake(cfg, s) ==
               Take(s.background[c.backgroundCut..],
                    Claim(s.futures, s.live[..k] + s.background[..c.backgroundCut]), c.first + c.middle)
  {
    FirstTake(cfg, s);
    MiddleSize(cfg, s.futures, s.live, s.background, s.backgroundInflight);
    var c := ComposeOf(cfg, s.futures, s.live, s.background, s.backgroundInflight);
    var k := |s.live| - |LiveTake(cfg, s).queue|;
    UntouchedBackground(s, k);
    if BackgroundAdmissible(cfg, s.background, s.backgroundInflight) {
      TakeAlike(cfg.maxBatch, s.futures, LiveTake(cfg, s).futures, s.background, c.first, c.backgroundCut);
      PoppedApart(s, k, c.backgroundCut);
    } else {
      assert s.live[..k] + s.background[..0] == s.live[..k];
      assert c.first + [] == c.first;
    }
  }

  lemma {:induction false} PoppedApart(s: State, k: nat, b: nat)
    requires Placed(s) && k <= |s.live| && b <= |s.background|
    ensures Claim(Claim(s.futures, s.live[..k]), s.background[..b]) == Claim(s.futures, s.live[..k] + s.background[..b])
  {
    PlacedDistinct(s);
    ClaimTwice(s.futures, s.live[..k], s.background[..b]);
  }

  lemma {:induction false} RestTake(maxBatch: nat, s: State, k: nat, b: nat, a: nat, batch: seq<nat>)
    requires Placed(s) && k <= a <= |s.live| && b <= |s.background| && |batch| <= maxBatch
    requires Known(s.futures, s.live[k..]) && a == k + Cut(s.futures, s.live[k..], maxBatch - |batch|)
    ensures var fs := Claim(s.futures, s.live[..k] + s.background[..b]);
            && Waiting(fs, s.live[k..]) && Distinct(s.live[k..])
            && TakeOf(maxBatch, fs, s.live[k..], batch, maxBatch - |batch|) ==
               Take(s.live[a..], Claim(s.futures, s.live[..a] + s.background[..b]),
                    batch + PendingIn(s.futures, s.live[k..][..a - k]))
  {
    UntouchedLive(s, k, b);
    Reassemble(s, k, b, a);
    TakeAlike(maxBatch, s.futures, Claim(s.futures, s.live[..k] + s.background[..b]), s.live[k..], batch, a - k);
  }

  /** Where the live queue is cut the second time. */
  lemma {:induction false} SecondCut(cfg: Config, s: State)
    requires cfg.Valid() && Placed(s)
    ensures var c := ComposeOf(cfg, s.futures, s.live, s.background, s.backgroundInflight);
            var k := |s.live| - |LiveTake(cfg, s).queue|;
            && 0 <= k <= c.liveCut
            && |c.first + c.middle| <= cfg.maxBatch
            && Known(s.futures, s.live[k..])
            && c.liveCut == k + Cut(s.futures, s.live[k..], cfg.maxBatch - |c.first + c.middle|)
            && c.last == PendingIn(s.futures, s.live[k..][..c.liveCut - k])
  {
    FirstTake(cfg, s);
    LastSize(cfg, s.futures, s.live, s.background, s.backgroundInflight);
  }

  function LastTake(cfg: Config, s: State): Take
    requires QueuesOk(s) && Known(LiveTake(cfg, s).futures, s.background)
    requires Known(MiddleTake(cfg, s).futures, LiveTake(cfg, s).queue)
  {
    var middle := MiddleTake(cfg, s);
    TakeOf(cfg.maxBatch, middle.futures, LiveTake(cfg, s).queue, middle.batch, cfg.maxBatch - |middle.batch|)
  }

  /** The third take, given where the first two stopped. */
  lemma {:induction false} LastOf(
    maxBatch: nat, s: State, k: nat, b: nat, a: nat, queue: seq<nat>, middle: Take, batch: seq<nat>, last: seq<nat>)
    requires Placed(s) && k <= a <= |s.live| && b <= |s.background| && |batch| <= maxBatch
    requires Known(s.futures, s.live[k..]) && a == k + Cut(s.futures, s.live[k..], maxBatch - |batch|)
    requires queue == s.live[k..] && last == PendingIn(s.futures, s.live[k..][..a - k])
    requires middle.futures == Claim(s.futures, s.live[..k] + s.background[..b]) && middle.batch == batch
    ensures Waiting(middle.futures, queue) && Distinct(queue)
    ensures TakeOf(maxBatch, middle.futures, queue, middle.batch, maxBatch - |middle.batch|) ==
            Take(s.live[a..], Claim(s.futures, s.live[..a] + s.background[..b]), batch + last)
  {
    RestTake(maxBatch, s, k, b, a, batch);
  }

  lemma {:induction false} ThirdTake(cfg: Config, s: State)
    requires cfg.Valid() && Placed(s) && Known(LiveTake(cfg, s).futures, s.background)
    ensures Waiting(MiddleTake(cfg, s).futures, LiveTake(cfg, s).queue) && Distinct(LiveTake(cfg, s).queue)
    ensures var c := ComposeOf(cfg, s.futures, s.live, s.background, s.backgroundInflight);
            LastTake(cfg, s) ==
            Take(s.live[c.liveCut..],
                 Claim(s.futures, s.live[..c.liveCut] + s.background[..c.backgroundCut]), c.Batch())
  {
    FirstTake(cfg, s);
    SecondTake(cfg, s);
    SecondCut(cfg, s);
    var c := ComposeOf(cfg, s.futures, s.live, s.background, s.backgroundInflight);
    var k := |s.live| - |LiveTake(cfg, s).queue|;
    LastOf(cfg.maxBatch, s, k, c.backgroundCut, c.liveCut, LiveTake(cfg, s).queue, MiddleTake(cfg, s), c.first + c.middle, c.last);
  }

  /** What the takes leave behind, and the capacity claimed for the batch. */
  predicate TookAll(s: State, t: State, middle: Take, last: Take) {
    && t.items == s.items && t.futures == last.futures
    && t.live == last.queue && t.background == middle.queue
    && t.busy == (if last.batch == [] then s.busy else s.busy + 1)
    && t.backgroundInflight == s.backgroundInflight + (if CarriesBackground(s.items, last.batch) then 1 else 0)
    && t.closed == s.closed && t.drain == s.drain
  }

  /** All three takes together are the composition of the machine. */
  lemma {:induction false} TakesCompose(cfg: Config, f: Text -> Vec, s: State, w: nat)
    returns (first: Take, middle: Take, last: Take, t: State)
    requires cfg.Valid() && Placed(s) && Enabled(cfg, s, Compose(w))
    ensures ThreeTakes(cfg, s.futures, s.live, s.background, s.backgroundInflight, first, middle, last)
    ensures last.batch == ComposeOf(cfg, s.futures, s.live, s.background, s.backgroundInflight).Batch()
    ensures t == Apply(cfg, f, s, Compose(w)) && Placed(t) && TookAll(s, t, middle, last)
  {
    FirstTake(cfg, s);
    SecondTake(cfg, s);
    ThirdTake(cfg, s);
    PlacedCompose(cfg, s, w);
    first, middle, last := LiveTake(cfg, s), MiddleTake(cfg, s), LastTake(cfg, s);
    t := Apply(cfg, f, s, Compose(w));
  }
}
