/** The process-level micro-batching scheduler as a labelled step machine.

    Every label is one critical section of the scheduler's lock, or one action on a
    future outside it; a run is any interleaving of labels. Items are named by their
    admission number, so `items[i]` and `futures[i]` describe the same submission.
 */
module SchedulerModel {

  type Text = string
  type Vec = seq<real>

  datatype Class = Live | Background

  /** What a future was completed with. */
  datatype Outcome = Vector(v: Vec) | ModelError | Mismatch | Closed

  /** The five states of a concurrent future. */
  datatype Future = Pending | Cancelled | Notified | Running | Finished(outcome: Outcome)

  datatype Item = Item(text: Text, cls: Class)

  /** Scheduler settings that the constructor accepts. */
  datatype Config = Config(maxBatch: nat, maxPending: nat, workers: nat, maxBackground: nat) {
    predicate Valid() {
      && workers >= 1
      && maxBatch >= 1
      && maxPending >= maxBatch
      && 1 <= maxBackground <= workers
    }

    /** Pending capacity background can never occupy. */
    function LiveReserve(): nat {
      Max(1, Min(maxBatch, maxPending / 2))
    }

    /** Batch slots live cannot monopolise. */
    function BackgroundFloor(): nat {
      Max(1, maxBatch / 4)
    }

    function PendingLimit(cls: Class): nat {
      match cls
      case Live => maxPending
      case Background => if maxPending - LiveReserve() > 1 then maxPending - LiveReserve() else 1
    }
  }

  function Min(a: nat, b: nat): nat { if a <= b then a else b }

  function Max(a: nat, b: nat): nat { if a >= b then a else b }

  /** Where one inference worker stands in its loop. */
  datatype Worker =
    | NotStarted
    | Awake                                                       // about to test the queues
    | Parked                                                      // blocked on the condition
    | Window                                                      // holding the micro-batch window open
    | Encoding(batch: seq<nat>)                                   // inside the forward pass
    | Settling(batch: seq<nat>, outs: seq<Outcome>, done: nat)    // completing futures one by one
    | Exited

  /** One `encode` call after admission: it owns items `first .. first + count`. */
  datatype Call = Call(first: nat, count: nat, got: seq<Vec>, raised: bool)

  datatype State = State(
    items: seq<Item>,
    futures: seq<Future>,
    live: seq<nat>,
    background: seq<nat>,
    workers: seq<Worker>,
    busy: int,
    backgroundInflight: int,
    started: bool,
    closed: bool,
    drain: bool,
    aborted: bool,               // some shutdown asked not to drain
    leftover: seq<nat>,          // removed by a shutdown, not yet failed
    calls: seq<Call>,
    history: seq<seq<nat>>)      // every non-empty batch, in composition order

  /** How one forward pass ends. */
  datatype Response = Vectors | Raised | WrongCount

  datatype Label =
    | Start
    | Admit(texts: seq<Text>, cls: Class)
    | Cancel(id: nat)
    | Park(w: nat)
    | OpenWindow(w: nat)
    | Compose(w: nat)
    | Encode(w: nat, response: Response)
    | Settle(w: nat)
    | Release(w: nat)
    | Exit(w: nat)
    | Close(drain: bool)
    | FailRemaining
    | FailOne(index: nat)
    | Collect(c: nat)
    | Raise(c: nat)

  // ------------------------------------------------------------------
  // Batch composition
  // ------------------------------------------------------------------

  /** Every queued entry names a known item. */
  predicate Known(futures: seq<Future>, ids: seq<nat>) {
    forall i :: 0 <= i < |ids| ==> ids[i] < |futures|
  }

  /** The uncancelled entries, in order. */
  function PendingIn(futures: seq<Future>, ids: seq<nat>): seq<nat>
    requires Known(futures, ids)
  {
    if ids == [] then []
    else if futures[ids[0]].Pending? then [ids[0]] + PendingIn(futures, ids[1..])
    else PendingIn(futures, ids[1..])
  }

  /** How many queue entries are popped to fill `capacity` slots; cancelled ones use no slot. */
  function Cut(futures: seq<Future>, ids: seq<nat>, capacity: nat): (k: nat)
    requires Known(futures, ids)
    ensures k <= |ids|
  {
    if capacity == 0 || ids == [] then 0
    else 1 + Cut(futures, ids[1..], if futures[ids[0]].Pending? then capacity - 1 else capacity)
  }

  /** Popped futures either start running or report their cancellation. */
  function Claim(futures: seq<Future>, popped: seq<nat>): (fs: seq<Future>)
    ensures |fs| == |futures|
  {
    seq(|futures|, i requires 0 <= i < |futures| =>
      if i !in popped then futures[i]
      else if futures[i].Pending? then Running
      else Notified)
  }

  /** One composition: live items first, then background, then live again in the slots that
      background left unused. `liveCut` and `backgroundCut` count the entries popped from each queue. */
  datatype Composition = Composition(
    liveCut: nat, backgroundCut: nat, first: seq<nat>, middle: seq<nat>, last: seq<nat>)
  {
    function Batch(): seq<nat> { first + middle + last }
  }

  predicate BackgroundAdmissible(cfg: Config, background: seq<nat>, inflight: int) {
    background != [] && inflight < cfg.maxBackground
  }

  function LiveCapacity(cfg: Config, allow: bool): nat {
    if !allow then cfg.maxBatch
    else if cfg.maxBatch > cfg.BackgroundFloor() then cfg.maxBatch - cfg.BackgroundFloor()
    else 0
  }

  function ComposeOf(cfg: Config, fs: seq<Future>, live: seq<nat>, background: seq<nat>, inflight: int)
    : (c: Composition)
    requires Known(fs, live) && Known(fs, background)
    ensures c.liveCut <= |live| && c.backgroundCut <= |background|
  {
    var allow := BackgroundAdmissible(cfg, background, inflight);
    var k1 := Cut(fs, live, LiveCapacity(cfg, allow));
    var first := PendingIn(fs, live[..k1]);
    var room := if cfg.maxBatch > |first| then cfg.maxBatch - |first| else 0;
    var k2 := if allow then Cut(fs, background, room) else 0;
    var middle := PendingIn(fs, background[..k2]);
    var room' := if room > |middle| then room - |middle| else 0;
    var k3 := Cut(fs, live[k1..], room');
    Composition(k1 + k3, k2, first, middle, PendingIn(fs, live[k1..][..k3]))
  }

  // ------------------------------------------------------------------
  // Guards and helpers
  // ------------------------------------------------------------------

  function Total(s: State): nat { |s.live| + |s.background| }

  predicate ShouldExit(s: State) {
    s.closed && (!s.drain || Total(s) == 0)
  }

  predicate CanCollect(cfg: Config, s: State) {
    s.live != [] || BackgroundAdmissible(cfg, s.background, s.backgroundInflight)
  }

  /** `notify_all` on the scheduler's condition. */
  function NotifyAll(ws: seq<Worker>): (r: seq<Worker>)
    ensures |r| == |ws|
    ensures forall i :: 0 <= i < |ws| ==> r[i] == if ws[i].Parked? then Awake else ws[i]
  {
    seq(|ws|, i requires 0 <= i < |ws| => if ws[i].Parked? then Awake else ws[i])
  }

  predicate CarriesBackground(items: seq<Item>, batch: seq<nat>) {
    exists i :: 0 <= i < |batch| && batch[i] < |items| && items[batch[i]].cls.Background?
  }

  function Outcomes(f: Text -> Vec, items: seq<Item>, batch: seq<nat>, response: Response): (outs: seq<Outcome>)
    requires forall i :: 0 <= i < |batch| ==> batch[i] < |items|
    ensures |outs| == |batch|
  {
    seq(|batch|, i requires 0 <= i < |batch| =>
      match response
      case Vectors => Vector(f(items[batch[i]].text))
      case Raised => ModelError
      case WrongCount => Mismatch)
  }

  /** `_settle`: complete a future unless its caller already abandoned it. */
  function SettleFuture(future: Future, outcome: Outcome): Future {
    if future.Pending? || future.Running? then Finished(outcome) else future
  }

  /** `Future.cancel`. */
  function CancelFuture(future: Future): Future {
    if future.Pending? then Cancelled else future
  }

  /** Failing a leftover first claims its future, then settles it. */
  function FailFuture(future: Future): Future {
    if future.Cancelled? then Notified else SettleFuture(future, Closed)
  }

  function NewIds(start: nat, count: nat): (ids: seq<nat>)
    ensures |ids| == count
    ensures forall i :: 0 <= i < count ==> ids[i] == start + i
  {
    seq(count, i => start + i)
  }

  function NewItems(texts: seq<Text>, cls: Class): (r: seq<Item>)
    ensures |r| == |texts|
    ensures forall i :: 0 <= i < |texts| ==> r[i] == Item(texts[i], cls)
  {
    seq(|texts|, i requires 0 <= i < |texts| => Item(texts[i], cls))
  }

  function NewFutures(count: nat): (r: seq<Future>)
    ensures |r| == count
    ensures forall i :: 0 <= i < count ==> r[i] == Pending
  {
    seq(count, i => Pending)
  }

  // ------------------------------------------------------------------
  // Steps
  // ------------------------------------------------------------------

  function Init(cfg: Config): State {
    State([], [], [], [], seq(cfg.workers, i => NotStarted), 0, 0, false, false, true, false, [], [], [])
  }


  predicate Enabled(cfg: Config, s: State, l: Label) {
    match l
    case Start => !s.started
    case Admit(texts, cls) =>
      && texts != []
      && |texts| <= cfg.PendingLimit(cls)
      && !s.closed
      && Total(s) + |texts| <= cfg.PendingLimit(cls)
    case Cancel(id) => id < |s.futures|
    case Park(w) => w < |s.workers| && s.workers[w].Awake? && !ShouldExit(s) && !CanCollect(cfg, s)
    case OpenWindow(w) => w < |s.workers| && s.workers[w].Awake? && !ShouldExit(s) && CanCollect(cfg, s)
    case Compose(w) =>
      w < |s.workers| && s.workers[w].Window? && Known(s.futures, s.live) && Known(s.futures, s.background)
    case Encode(w, _) =>
      && w < |s.workers|
      && s.workers[w].Encoding?
      && forall i :: 0 <= i < |s.workers[w].batch| ==> s.workers[w].batch[i] < |s.items|
    case Settle(w) =>
      && w < |s.workers|
      && s.workers[w].Settling?
      && s.workers[w].done < |s.workers[w].batch| == |s.workers[w].outs|
      && s.workers[w].batch[s.workers[w].done] < |s.futures|
    case Release(w) => w < |s.workers| && s.workers[w].Settling? && s.workers[w].done == |s.workers[w].batch|
    case Exit(w) => w < |s.workers| && s.workers[w].Awake? && ShouldExit(s)
    case Close(_) => true
    case FailRemaining => s.closed
    case FailOne(index) => index < |s.leftover| && s.leftover[index] < |s.futures|
    case Collect(c) =>
      && c < |s.calls|
      && !s.calls[c].raised
      && |s.calls[c].got| < s.calls[c].count
      && var id := s.calls[c].first + |s.calls[c].got|;
      && id < |s.futures|
      && s.futures[id].Finished?
      && s.futures[id].outcome.Vector?
    case Raise(c) => c < |s.calls| && |s.calls[c].got| < s.calls[c].count
  }

  function ApplyAdmit(s: State, texts: seq<Text>, cls: Class): State {
    var ids := NewIds(|s.items|, |texts|);
    s.(items := s.items + NewItems(texts, cls),
       futures := s.futures + NewFutures(|texts|),
       live := if cls.Live? then s.live + ids else s.live,
       background := if cls.Background? then s.background + ids else s.background,
       workers := NotifyAll(s.workers),
       calls := s.calls + [Call(|s.items|, |texts|, [], false)])
  }

  /** Worker `w` leaves with `batch`, the uncancelled entries among the first `a` live and `b`
      background ones; its capacity is claimed before the lock is released. */
  function ApplyTake(s: State, w: nat, a: nat, b: nat, batch: seq<nat>): State
    requires w < |s.workers| && a <= |s.live| && b <= |s.background|
  {
    s.(futures := Claim(s.futures, s.live[..a] + s.background[..b]),
       live := s.live[a..],
       background := s.background[b..],
       workers := NotifyAll(s.workers)[w := if batch == [] then Awake else Encoding(batch)],
       busy := if batch == [] then s.busy else s.busy + 1,
       backgroundInflight :=
         s.backgroundInflight + (if CarriesBackground(s.items, batch) then 1 else 0),
       history := if batch == [] then s.history else s.history + [batch])
  }

  function ApplyCompose(cfg: Config, s: State, w: nat): State
    requires Enabled(cfg, s, Compose(w))
  {
    var c := ComposeOf(cfg, s.futures, s.live, s.background, s.backgroundInflight);
    ApplyTake(s, w, c.liveCut, c.backgroundCut, c.Batch())
  }

  function ApplySettle(s: State, w: nat): State
    requires w < |s.workers| && s.workers[w].Settling?
    requires s.workers[w].done < |s.workers[w].batch| == |s.workers[w].outs|
    requires s.workers[w].batch[s.workers[w].done] < |s.futures|
  {
    var Settling(batch, outs, done) := s.workers[w];
    s.(futures := s.futures[batch[done] := SettleFuture(s.futures[batch[done]], outs[done])],
       workers := s.workers[w := Settling(batch, outs, done + 1)])
  }

  function ApplyRelease(s: State, w: nat): State
    requires w < |s.workers| && s.workers[w].Settling?
  {
    s.(busy := s.busy - 1,
       backgroundInflight :=
         s.backgroundInflight - (if CarriesBackground(s.items, s.workers[w].batch) then 1 else 0),
       workers := NotifyAll(s.workers)[w := Awake])
  }

  function Apply(cfg: Config, f: Text -> Vec, s: State, l: Label): State
    requires Enabled(cfg, s, l)
  {
    match l
    case Start => s.(started := true, workers := seq(|s.workers|, i => Awake))
    case Admit(texts, cls) => ApplyAdmit(s, texts, cls)
    case Cancel(id) => s.(futures := s.futures[id := CancelFuture(s.futures[id])])
    case Park(w) => s.(workers := s.workers[w := Parked])
    case OpenWindow(w) => s.(workers := s.workers[w := Window])
    case Compose(w) => ApplyCompose(cfg, s, w)
    case Encode(w, response) =>
      var batch := s.workers[w].batch;
      s.(workers := s.workers[w := Settling(batch, Outcomes(f, s.items, batch, response), 0)])
    case Settle(w) => ApplySettle(s, w)
    case Release(w) => ApplyRelease(s, w)
    case Exit(w) => s.(workers := s.workers[w := Exited])
    case Close(drain) =>
      s.(closed := true, drain := drain, aborted := s.aborted || !drain, workers := NotifyAll(s.workers))
    case FailRemaining =>
      s.(live := [], background := [], leftover := s.leftover + s.live + s.background,
         workers := NotifyAll(s.workers))
    case FailOne(index) =>
      var id := s.leftover[index];
      s.(futures := s.futures[id := FailFuture(s.futures[id])],
         leftover := s.leftover[..index] + s.leftover[index + 1..])
    case Collect(c) =>
      var call := s.calls[c];
      s.(calls := s.calls[c := call.(got := call.got + [s.futures[call.first + |call.got|].outcome.v])])
    case Raise(c) => s.(calls := s.calls[c := s.calls[c].(raised := true)])
  }

  // ------------------------------------------------------------------
  // Runs
  // ------------------------------------------------------------------

  /** `labels` leads from `s` to `t`. */
  predicate Run(cfg: Config, f: Text -> Vec, s: State, labels: seq<Label>, t: State)
    decreases |labels|
  {
    if labels == [] then s == t
    else Enabled(cfg, s, labels[0]) && Run(cfg, f, Apply(cfg, f, s, labels[0]), labels[1..], t)
  }

  ghost predicate Reachable(cfg: Config, f: Text -> Vec, s: State) {
    exists labels :: Run(cfg, f, Init(cfg), labels, s)
  }

  lemma {:induction false} RunJoin(cfg: Config, f: Text -> Vec, s: State, a: seq<Label>, t: State, b: seq<Label>, u: State)
    requires Run(cfg, f, s, a, t) && Run(cfg, f, t, b, u)
    ensures Run(cfg, f, s, a + b, u)
    decreases |a|
  {
    if a == [] {
      assert a + b == b;
    } else {
      RunJoin(cfg, f, Apply(cfg, f, s, a[0]), a[1..], t, b, u);
      assert (a + b)[1..] == a[1..] + b;
    }
  }

  lemma {:induction false} RunCons(cfg: Config, f: Text -> Vec, s: State, l: Label, next: State, rest: seq<Label>, u: State)
    requires Enabled(cfg, s, l) && next == Apply(cfg, f, s, l) && Run(cfg, f, next, rest, u)
    ensures Run(cfg, f, s, [l] + rest, u)
  {
    assert ([l] + rest)[1..] == rest;
  }

  lemma {:induction false} RunOne(cfg: Config, f: Text -> Vec, s: State, l: Label)
    requires Enabled(cfg, s, l)
    ensures Run(cfg, f, s, [l], Apply(cfg, f, s, l))
  {
    assert [l][1..] == [];
  }

  lemma {:induction false} RunSnoc(cfg: Config, f: Text -> Vec, s: State, labels: seq<Label>, t: State, l: Label)
    requires Run(cfg, f, s, labels, t) && Enabled(cfg, t, l)
    ensures Run(cfg, f, s, labels + [l], Apply(cfg, f, t, l))
  {
    RunOne(cfg, f, t, l);
    RunJoin(cfg, f, s, labels, t, [l], Apply(cfg, f, t, l));
  }

  lemma {:induction false} ReachableRun(cfg: Config, f: Text -> Vec, s: State, labels: seq<Label>, t: State)
    requires Reachable(cfg, f, s) && Run(cfg, f, s, labels, t)
    ensures Reachable(cfg, f, t)
  {
    var early :| Run(cfg, f, Init(cfg), early, s);
    RunJoin(cfg, f, Init(cfg), early, s, labels, t);
  }

  lemma {:induction false} ReachableStep(cfg: Config, f: Text -> Vec, s: State, l: Label)
    requires Reachable(cfg, f, s) && Enabled(cfg, s, l)
    ensures Reachable(cfg, f, Apply(cfg, f, s, l))
  {
    RunOne(cfg, f, s, l);
    ReachableRun(cfg, f, s, [l], Apply(cfg, f, s, l));
  }
}
