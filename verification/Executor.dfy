/** The bounded thread-pool offload: event-loop steps and thread steps in any interleaving. */
module Executor {

  /** How far the work of one submission is. */
  datatype Zone =
    | Waiting      // wants a permit
    | Refused      // timed out, refused, or its caller left before admission
    | InPool       // admitted, in the pool's queue
    | Taken        // taken from the queue by a thread that has not reached `_execute`
    | OnThread     // inside the counted part of `_execute`
    | Exiting      // counted out, its thread not yet free
    | Left         // the thread is done with it
    | Dropped      // cancelled in the pool's queue by a shutdown

  /** An event-loop future. */
  datatype Fut = NoFut | Unset | Settled | Cancelled

  /** A submission: its work, the pool's future (`inner`), the shield around it that the caller awaits
      (`outer`), and whether `_completed` has run. */
  datatype Task = Task(zone: Zone, inner: Fut, outer: Fut, completed: bool)

  datatype Config = Config(maxWorkers: nat, queueBound: nat) {
    predicate Valid() { maxWorkers >= 1 }
    function Capacity(): nat { maxWorkers + queueBound }
  }

  datatype State = State(
    tasks: seq<Task>,
    free: int,          // the semaphore
    queued: int,        // `_queued`
    active: int,        // `_active`
    closed: bool)

  datatype Label =
    | Submit
    | Expire(t: nat)            // admission timeout, or cancellation while waiting
    | Admit(t: nat)
    | Reject(t: nat)            // acquired a permit, found the executor closed
    | StartFails(t: nat)        // the pool refuses the submission
    | Take(t: nat)              // a thread takes the work from the pool's queue
    | Start(t: nat)             // the locked prologue of `_execute`
    | Stop(t: nat)
    | Leave(t: nat)
    | Propagate(t: nat)         // the loop copies the end of the work into the pool's future
    | Complete(t: nat)          // `_completed`, a callback of the pool's future
    | Deliver(t: nat)           // the shield hands the result to the caller
    | CancelCaller(t: nat)      // the caller's await is cancelled
    | BeginShutdown
    | ShutdownTimesOut
    | ShutdownDrained

  predicate Zoned(s: State, t: nat, zone: Zone) {
    t < |s.tasks| && s.tasks[t].zone == zone
  }

  predicate Done(fut: Fut) { fut.Settled? || fut.Cancelled? }

  /** How many submissions satisfy a test. */
  function Count(tasks: seq<Task>, test: Task -> bool): nat {
    if tasks == [] then 0 else (if test(tasks[0]) then 1 else 0) + Count(tasks[1..], test)
  }

  predicate Pooled(task: Task) { task.zone.InPool? }

  /** Admitted and not begun. */
  predicate Queued(task: Task) { task.zone.InPool? || task.zone.Taken? }

  predicate Running(task: Task) { task.zone.OnThread? }

  predicate Threaded(task: Task) { task.zone.Taken? || task.zone.OnThread? || task.zone.Exiting? }

  predicate Lost(task: Task) { task.zone.Dropped? }

  /** The pool still has to do something for it. */
  predicate AtPool(task: Task) { Pooled(task) || Threaded(task) }

  /** Admitted and not completed. */
  predicate Holding(task: Task) { !task.inner.NoFut? && !task.completed }

  predicate Enabled(cfg: Config, s: State, l: Label) {
    match l
    case Submit => true
    case Expire(t) => Zoned(s, t, Waiting)
    case Admit(t) => Zoned(s, t, Waiting) && s.free > 0 && !s.closed
    case Reject(t) => Zoned(s, t, Waiting) && s.free > 0 && s.closed
    case StartFails(t) => Zoned(s, t, Waiting) && s.free > 0 && !s.closed
    case Take(t) => Zoned(s, t, InPool) && Count(s.tasks, Threaded) < cfg.maxWorkers
    case Start(t) => Zoned(s, t, Taken)
    case Stop(t) => Zoned(s, t, OnThread)
    case Leave(t) => Zoned(s, t, Exiting)
    case Propagate(t) => (Zoned(s, t, Left) || Zoned(s, t, Dropped)) && s.tasks[t].inner.Unset?
    case Complete(t) => t < |s.tasks| && Done(s.tasks[t].inner) && !s.tasks[t].completed
    case Deliver(t) => t < |s.tasks| && Done(s.tasks[t].inner) && s.tasks[t].outer.Unset?
    case CancelCaller(t) => t < |s.tasks| && s.tasks[t].outer.Unset?
    case BeginShutdown => true
    case ShutdownTimesOut => s.closed
    case ShutdownDrained => s.closed && Count(s.tasks, Pooled) == 0
  }

  function Put(s: State, t: nat, task: Task): State
    requires t < |s.tasks|
  {
    s.(tasks := s.tasks[t := task])
  }

  /** `cancel_futures=True`: work still in the pool's queue is cancelled. */
  function CancelQueued(tasks: seq<Task>): (r: seq<Task>)
    ensures |r| == |tasks|
    ensures forall i :: 0 <= i < |tasks| ==>
              r[i] == if tasks[i].zone.InPool? then tasks[i].(zone := Dropped) else tasks[i]
  {
    seq(|tasks|, i requires 0 <= i < |tasks| =>
      if tasks[i].zone.InPool? then tasks[i].(zone := Dropped) else tasks[i])
  }

  /** The shield is what makes a caller's cancellation settle `outer` and nothing else. */
  function Apply(cfg: Config, s: State, l: Label): State
    requires Enabled(cfg, s, l)
  {
    match l
    case Submit => s.(tasks := s.tasks + [Task(Waiting, NoFut, NoFut, false)])
    case Expire(t) => Put(s, t, s.tasks[t].(zone := Refused))
    case Admit(t) =>
      Put(s, t, Task(InPool, Unset, Unset, false)).(free := s.free - 1, queued := s.queued + 1)
    case Reject(t) => Put(s, t, s.tasks[t].(zone := Refused))
    case StartFails(t) => Put(s, t, s.tasks[t].(zone := Refused))
    case Take(t) => Put(s, t, s.tasks[t].(zone := Taken))
    case Start(t) => Put(s, t, s.tasks[t].(zone := OnThread)).(queued := s.queued - 1, active := s.active + 1)
    case Stop(t) => Put(s, t, s.tasks[t].(zone := Exiting)).(active := s.active - 1)
    case Leave(t) => Put(s, t, s.tasks[t].(zone := Left))
    case Propagate(t) => Put(s, t, s.tasks[t].(inner := if s.tasks[t].zone.Dropped? then Cancelled else Settled))
    case Complete(t) => Put(s, t, s.tasks[t].(completed := true)).(free := s.free + 1)
    case Deliver(t) => Put(s, t, s.tasks[t].(outer := s.tasks[t].inner))
    case CancelCaller(t) => Put(s, t, s.tasks[t].(outer := Cancelled))
    case BeginShutdown => s.(closed := true)
    case ShutdownTimesOut => s.(tasks := CancelQueued(s.tasks))
    case ShutdownDrained => s.(tasks := CancelQueued(s.tasks))
  }

  function Init(cfg: Config): State {
    State([], cfg.Capacity(), 0, 0, false)
  }

  predicate Run(cfg: Config, s: State, labels: seq<Label>, t: State)
    decreases |labels|
  {
    if labels == [] then s == t
    else Enabled(cfg, s, labels[0]) && Run(cfg, Apply(cfg, s, labels[0]), labels[1..], t)
  }

  ghost predicate Reachable(cfg: Config, s: State) {
    exists labels :: Run(cfg, Init(cfg), labels, s)
  }

  // ------------------------------------------------------------------
  // Counting
  // ------------------------------------------------------------------

  lemma {:induction false} CountUpdate(tasks: seq<Task>, t: nat, task: Task, test: Task -> bool)
    requires t < |tasks|
    ensures Count(tasks[t := task], test) ==
            Count(tasks, test) - (if test(tasks[t]) then 1 else 0) + (if test(task) then 1 else 0)
    decreases t
  {
    if t == 0 {
      assert tasks[t := task][1..] == tasks[1..];
    } else {
      assert tasks[t := task][1..] == tasks[1..][t - 1 := task];
      CountUpdate(tasks[1..], t - 1, task, test);
    }
  }

  lemma {:induction false} CountSnoc(tasks: seq<Task>, task: Task, test: Task -> bool)
    ensures Count(tasks + [task], test) == Count(tasks, test) + if test(task) then 1 else 0
  {
    if tasks == [] {
      assert tasks + [task] == [task];
    } else {
      assert (tasks + [task])[1..] == tasks[1..] + [task];
      CountSnoc(tasks[1..], task, test);
    }
  }

  /** A shutdown moves the queued work to the lost work and touches nothing else. */
  lemma {:induction false} CountCancelled(tasks: seq<Task>)
    ensures var r := CancelQueued(tasks);
            && Count(r, Pooled) == 0 && Count(r, Lost) == Count(tasks, Lost) + Count(tasks, Pooled)
            && Count(r, Queued) == Count(tasks, Queued) - Count(tasks, Pooled)
            && Count(r, Running) == Count(tasks, Running) && Count(r, Threaded) == Count(tasks, Threaded)
            && Count(r, Holding) == Count(tasks, Holding)
  {
    if tasks != [] {
      assert CancelQueued(tasks)[1..] == CancelQueued(tasks[1..]);
      CountCancelled(tasks[1..]);
    }
  }

  lemma {:induction false} CountImplies(tasks: seq<Task>, narrow: Task -> bool, wide: Task -> bool)
    requires forall i :: 0 <= i < |tasks| && narrow(tasks[i]) ==> wide(tasks[i])
    ensures Count(tasks, narrow) <= Count(tasks, wide)
  {
    if tasks != [] {
      CountImplies(tasks[1..], narrow, wide);
    }
  }

  // ------------------------------------------------------------------
  // The invariant
  // ------------------------------------------------------------------

  /** Whatever happened to the caller, the pool's future is unset until the pool is done. */
  predicate TaskOk(task: Task) {
    && (task.zone.Waiting? || task.zone.Refused? ==> task.inner.NoFut? && task.outer.NoFut? && !task.completed)
    && (AtPool(task) ==> task.inner.Unset? && !task.completed)
    && (task.zone.Left? || task.zone.Dropped? ==> !task.inner.NoFut?)
    && (task.completed ==> Done(task.inner))
    && (task.outer.Settled? ==> Done(task.inner))
  }

  predicate TasksOk(s: State) {
    forall t :: 0 <= t < |s.tasks| ==> TaskOk(s.tasks[t])
  }

  predicate Counted(cfg: Config, s: State) {
    && s.free >= 0
    && s.free + Count(s.tasks, Holding) == cfg.Capacity()
    && s.active == Count(s.tasks, Running)
    && Count(s.tasks, Threaded) <= cfg.maxWorkers
    && s.queued == Count(s.tasks, Queued) + Count(s.tasks, Lost)
  }

  predicate Inv(cfg: Config, s: State) { TasksOk(s) && Counted(cfg, s) }

  lemma {:induction false} TasksStep(cfg: Config, s: State, l: Label)
    requires TasksOk(s) && Enabled(cfg, s, l)
    ensures TasksOk(Apply(cfg, s, l))
  {
  }

  predicate OneTask(l: Label) {
    !l.Submit? && !l.BeginShutdown? && !l.ShutdownTimesOut? && !l.ShutdownDrained?
  }

  /** How replacing one submission changes the counts. */
  lemma {:induction false} Recount(tasks: seq<Task>, t: nat, task: Task)
    requires t < |tasks|
    ensures var r := tasks[t := task];
            && Count(r, Queued) == Count(tasks, Queued) - (if Queued(tasks[t]) then 1 else 0) + (if Queued(task) then 1 else 0)
            && Count(r, Running) == Count(tasks, Running) - (if Running(tasks[t]) then 1 else 0) + (if Running(task) then 1 else 0)
            && Count(r, Threaded) == Count(tasks, Threaded) - (if Threaded(tasks[t]) then 1 else 0) + (if Threaded(task) then 1 else 0)
            && Count(r, Holding) == Count(tasks, Holding) - (if Holding(tasks[t]) then 1 else 0) + (if Holding(task) then 1 else 0)
            && Count(r, Lost) == Count(tasks, Lost) - (if Lost(tasks[t]) then 1 else 0) + (if Lost(task) then 1 else 0)
  {
    CountUpdate(tasks, t, task, Queued);
    CountUpdate(tasks, t, task, Running);
    CountUpdate(tasks, t, task, Threaded);
    CountUpdate(tasks, t, task, Holding);
    CountUpdate(tasks, t, task, Lost);
  }

  /** The steps that change a counter or the semaphore. */
  predicate Counts(l: Label) { l.Admit? || l.Start? || l.Stop? || l.Complete? }

  lemma {:induction false} CountedMove(cfg: Config, s: State, l: Label)
    requires TasksOk(s) && Counted(cfg, s) && Enabled(cfg, s, l) && Counts(l)
    ensures Counted(cfg, Apply(cfg, s, l))
  {
    assert TaskOk(s.tasks[l.t]);
    Recount(s.tasks, l.t, Apply(cfg, s, l).tasks[l.t]);
  }

  lemma {:induction false} CountedSame(cfg: Config, s: State, l: Label)
    requires TasksOk(s) && Counted(cfg, s) && Enabled(cfg, s, l) && OneTask(l) && !Counts(l)
    ensures Counted(cfg, Apply(cfg, s, l))
  {
    assert TaskOk(s.tasks[l.t]);
    Recount(s.tasks, l.t, Apply(cfg, s, l).tasks[l.t]);
  }

  lemma {:induction false} CountedTask(cfg: Config, s: State, l: Label)
    requires TasksOk(s) && Counted(cfg, s) && Enabled(cfg, s, l) && OneTask(l)
    ensures Counted(cfg, Apply(cfg, s, l))
  {
    if Counts(l) {
      CountedMove(cfg, s, l);
    } else {
      CountedSame(cfg, s, l);
    }
  }

  lemma {:induction false} CountedSubmit(cfg: Config, s: State)
    requires Counted(cfg, s)
    ensures Counted(cfg, Apply(cfg, s, Submit))
  {
    var task := Task(Waiting, NoFut, NoFut, false);
    CountSnoc(s.tasks, task, Queued);
    CountSnoc(s.tasks, task, Running);
    CountSnoc(s.tasks, task, Threaded);
    CountSnoc(s.tasks, task, Holding);
    CountSnoc(s.tasks, task, Lost);
  }

  lemma {:induction false} InvStep(cfg: Config, s: State, l: Label)
    requires Inv(cfg, s) && Enabled(cfg, s, l)
    ensures Inv(cfg, Apply(cfg, s, l))
  {
    TasksStep(cfg, s, l);
    match l
    case Submit => CountedSubmit(cfg, s);
    case BeginShutdown =>
    case ShutdownTimesOut => CountCancelled(s.tasks);
    case ShutdownDrained => CountCancelled(s.tasks);
    case _ => CountedTask(cfg, s, l);
  }

  lemma {:induction false} InvRun(cfg: Config, s: State, labels: seq<Label>, t: State)
    requires Inv(cfg, s) && Run(cfg, s, labels, t)
    ensures Inv(cfg, t)
    decreases |labels|
  {
    if labels != [] {
      InvStep(cfg, s, labels[0]);
      InvRun(cfg, Apply(cfg, s, labels[0]), labels[1..], t);
    }
  }

  lemma {:induction false} InvReachable(cfg: Config, s: State)
    requires Reachable(cfg, s)
    ensures Inv(cfg, s)
  {
    var labels :| Run(cfg, Init(cfg), labels, s);
    InvRun(cfg, Init(cfg), labels, s);
  }

  // ------------------------------------------------------------------
  // Promises
  // ------------------------------------------------------------------

  /** Over every interleaving of loop and thread steps, free permits plus admitted-but-not-completed
      work equals `max_workers + queue_bound`; everything in the pool or on a thread holds one of
      those permits; no more than `max_workers` callables run at once, and `_active` counts them. */
  lemma {:induction false} CapacityConserved(cfg: Config, s: State)
    requires cfg.Valid() && Reachable(cfg, s)
    ensures s.free >= 0 && s.free + Count(s.tasks, Holding) == cfg.Capacity()
    ensures Count(s.tasks, AtPool) <= Count(s.tasks, Holding)
    ensures s.active == Count(s.tasks, Running) <= Count(s.tasks, Threaded) <= cfg.maxWorkers
  {
    InvReachable(cfg, s);
    forall i | 0 <= i < |s.tasks| && AtPool(s.tasks[i]) ensures Holding(s.tasks[i]) {
      assert TaskOk(s.tasks[i]);
    }
    CountImplies(s.tasks, AtPool, Holding);
    CountImplies(s.tasks, Running, Threaded);
  }

  /** When the pool is saturated a new caller is admitted only after some submission completes. */
  lemma {:induction false} SaturatedPoolAdmitsNobody(cfg: Config, s: State, t: nat)
    requires cfg.Valid() && Reachable(cfg, s) && Count(s.tasks, Holding) == cfg.Capacity()
    ensures !Enabled(cfg, s, Admit(t))
  {
    CapacityConserved(cfg, s);
  }

  // ------------------------------------------------------------------
  // Cancelled callers
  // ------------------------------------------------------------------

  /** Some shutdown of the run cancels submission `t` in the pool's queue. */
  predicate Drops(cfg: Config, s: State, labels: seq<Label>, t: nat)
    decreases |labels|
  {
    && labels != [] && Enabled(cfg, s, labels[0])
    && ((labels[0].ShutdownTimesOut? && Zoned(s, t, InPool)) || Drops(cfg, Apply(cfg, s, labels[0]), labels[1..], t))
  }

  lemma {:induction false} CountZero(tasks: seq<Task>, t: nat, test: Task -> bool)
    requires Count(tasks, test) == 0 && t < |tasks|
    ensures !test(tasks[t])
    decreases t
  {
    if t > 0 {
      CountZero(tasks[1..], t - 1, test);
    }
  }

  lemma {:induction false} StaysAtPool(cfg: Config, s: State, l: Label, t: nat)
    requires Enabled(cfg, s, l) && t < |s.tasks| && AtPool(s.tasks[t])
    requires l != Leave(t) && !(l.ShutdownTimesOut? && s.tasks[t].zone.InPool?)
    ensures t < |Apply(cfg, s, l).tasks| && AtPool(Apply(cfg, s, l).tasks[t])
  {
    if l.ShutdownDrained? {
      CountZero(s.tasks, t, Pooled);
    }
  }

  lemma {:induction false} HeldRun(cfg: Config, s: State, labels: seq<Label>, u: State, t: nat)
    requires Inv(cfg, s) && Run(cfg, s, labels, u) && t < |s.tasks| && AtPool(s.tasks[t])
    requires Leave(t) !in labels && !Drops(cfg, s, labels, t)
    ensures Complete(t) !in labels && t < |u.tasks| && AtPool(u.tasks[t])
    decreases |labels|
  {
    if labels != [] {
      assert labels == [labels[0]] + labels[1..];
      assert TaskOk(s.tasks[t]);
      StaysAtPool(cfg, s, labels[0], t);
      InvStep(cfg, s, labels[0]);
      HeldRun(cfg, Apply(cfg, s, labels[0]), labels[1..], u, t);
    }
  }

  /** A submission on a thread is out of every shutdown's reach. */
  lemma {:induction false} ThreadsAreNotDropped(cfg: Config, s: State, labels: seq<Label>, t: nat)
    requires t < |s.tasks| && Threaded(s.tasks[t]) && Leave(t) !in labels
    ensures !Drops(cfg, s, labels, t)
    decreases |labels|
  {
    if labels != [] && Enabled(cfg, s, labels[0]) {
      assert labels == [labels[0]] + labels[1..];
      ThreadsAreNotDropped(cfg, Apply(cfg, s, labels[0]), labels[1..], t);
    }
  }

  /** From any reachable state in which a submission is in the pool's queue or on a thread, no run gives its permit
      back before its thread has left it, whoever is cancelled meanwhile; only a submission still in the
      queue can lose its place, to a shutdown that times out. In the end state it still holds its permit. */
  lemma {:induction false} CancellationKeepsPermit(cfg: Config, s: State, labels: seq<Label>, u: State, t: nat)
    requires cfg.Valid() && Reachable(cfg, s) && Run(cfg, s, labels, u)
    requires t < |s.tasks| && AtPool(s.tasks[t])
    requires Leave(t) !in labels && (Threaded(s.tasks[t]) || !Drops(cfg, s, labels, t))
    ensures Complete(t) !in labels
    ensures t < |u.tasks| && AtPool(u.tasks[t]) && Holding(u.tasks[t])
  {
    InvReachable(cfg, s);
    if Threaded(s.tasks[t]) {
      ThreadsAreNotDropped(cfg, s, labels, t);
    }
    InvRun(cfg, s, labels, u);
    HeldRun(cfg, s, labels, u, t);
    assert TaskOk(u.tasks[t]);
  }

  /** It is the shield that does it: if the cancellation reached the pool's future as well, the permit
      of a callable that is still running could be given back at once. */
  lemma {:induction false} UnshieldedCancelReleases(cfg: Config, s: State, t: nat)
    requires cfg.Valid() && Reachable(cfg, s) && t < |s.tasks| && Running(s.tasks[t])
    ensures var bare := Put(s, t, s.tasks[t].(inner := Cancelled, outer := Cancelled));
            && Enabled(cfg, bare, Complete(t))
            && Apply(cfg, bare, Complete(t)).free == s.free + 1
            && Count(Apply(cfg, bare, Complete(t)).tasks, Running) == Count(s.tasks, Running)
  {
    InvReachable(cfg, s);
    assert TaskOk(s.tasks[t]);
    var bare := Put(s, t, s.tasks[t].(inner := Cancelled, outer := Cancelled));
    CountUpdate(s.tasks, t, bare.tasks[t], Running);
    CountUpdate(bare.tasks, t, bare.tasks[t].(completed := true), Running);
  }

  // ------------------------------------------------------------------
  // The snapshot
  // ------------------------------------------------------------------

  /** Some shutdown of the run times out while work is in the pool's queue. */
  predicate DropsWork(cfg: Config, s: State, labels: seq<Label>)
    decreases |labels|
  {
    && labels != [] && Enabled(cfg, s, labels[0])
    && ((labels[0].ShutdownTimesOut? && Count(s.tasks, Pooled) > 0) || DropsWork(cfg, Apply(cfg, s, labels[0]), labels[1..]))
  }

  lemma {:induction false} LostTask(cfg: Config, s: State, l: Label)
    requires Enabled(cfg, s, l) && OneTask(l)
    ensures Count(Apply(cfg, s, l).tasks, Lost) == Count(s.tasks, Lost)
  {
    var task := Apply(cfg, s, l).tasks[l.t];
    assert Apply(cfg, s, l).tasks == s.tasks[l.t := task] && Lost(task) == Lost(s.tasks[l.t]);
    CountUpdate(s.tasks, l.t, task, Lost);
  }

  lemma {:induction false} LostShutdown(cfg: Config, s: State, l: Label)
    requires Enabled(cfg, s, l) && (l.ShutdownTimesOut? || l.ShutdownDrained?)
    ensures Count(Apply(cfg, s, l).tasks, Lost) == Count(s.tasks, Lost) + Count(s.tasks, Pooled)
  {
    CountCancelled(s.tasks);
  }

  lemma {:induction false} LostStep(cfg: Config, s: State, l: Label)
    requires Enabled(cfg, s, l)
    ensures Count(Apply(cfg, s, l).tasks, Lost) ==
            Count(s.tasks, Lost) + if l.ShutdownTimesOut? then Count(s.tasks, Pooled) else 0
  {
    if OneTask(l) {
      LostTask(cfg, s, l);
    } else if l.ShutdownTimesOut? || l.ShutdownDrained? {
      LostShutdown(cfg, s, l);
    } else if l.Submit? {
      CountSnoc(s.tasks, Task(Waiting, NoFut, NoFut, false), Lost);
    }
  }

  lemma {:induction false} LostRun(cfg: Config, s: State, labels: seq<Label>, u: State)
    requires Run(cfg, s, labels, u)
    ensures Count(u.tasks, Lost) >= Count(s.tasks, Lost)
    ensures Count(u.tasks, Lost) > Count(s.tasks, Lost) <==> DropsWork(cfg, s, labels)
    decreases |labels|
  {
    if labels != [] {
      LostStep(cfg, s, labels[0]);
      LostRun(cfg, Apply(cfg, s, labels[0]), labels[1..], u);
    }
  }

  /** After any run `_queued` equals the admitted work that has not begun, in the pool's queue or just
      taken from it, if and only if no shutdown timed out while work was in the queue; `_active` is
      exact in every run. */
  lemma {:induction false} SnapshotExactly(cfg: Config, labels: seq<Label>, s: State)
    requires cfg.Valid() && Run(cfg, Init(cfg), labels, s)
    ensures s.queued == Count(s.tasks, Queued) <==> !DropsWork(cfg, Init(cfg), labels)
    ensures s.active == Count(s.tasks, Running)
  {
    InvRun(cfg, Init(cfg), labels, s);
    LostRun(cfg, Init(cfg), labels, s);
  }

  lemma {:induction false} RunCons(cfg: Config, s: State, l: Label, rest: seq<Label>, u: State)
    requires Enabled(cfg, s, l) && Run(cfg, Apply(cfg, s, l), rest, u)
    ensures Run(cfg, s, [l] + rest, u)
    ensures DropsWork(cfg, s, [l] + rest) <==>
            (l.ShutdownTimesOut? && Count(s.tasks, Pooled) > 0) || DropsWork(cfg, Apply(cfg, s, l), rest)
  {
    assert ([l] + rest)[1..] == rest;
  }

  /** The gauge drifts: one queued task under a timed-out shutdown leaves `_queued` at one although
      nothing is queued and its permit is back. */
  lemma {:induction false} TimedOutShutdownDrifts(cfg: Config) returns (labels: seq<Label>, s: State)
    requires cfg.Valid()
    ensures Run(cfg, Init(cfg), labels, s) && DropsWork(cfg, Init(cfg), labels)
    ensures s.free == cfg.Capacity() && s.queued == 1 && Count(s.tasks, Queued) == 0
  {
    var s1 := Apply(cfg, Init(cfg), Submit);
    assert s1.tasks == [Task(Waiting, NoFut, NoFut, false)];
    var s2 := Apply(cfg, s1, Admit(0));
    assert s2.tasks == [Task(InPool, Unset, Unset, false)];
    var s3 := Apply(cfg, s2, BeginShutdown);
    labels, s := DropOne(cfg, s3);
    RunCons(cfg, s2, BeginShutdown, labels, s);
    labels := [BeginShutdown] + labels;
    RunCons(cfg, s1, Admit(0), labels, s);
    labels := [Admit(0)] + labels;
    RunCons(cfg, Init(cfg), Submit, labels, s);
    labels := [Submit] + labels;
  }

  lemma {:induction false} DropOne(cfg: Config, s: State) returns (labels: seq<Label>, u: State)
    requires s.closed && s.tasks == [Task(InPool, Unset, Unset, false)]
    ensures Run(cfg, s, labels, u) && DropsWork(cfg, s, labels)
    ensures u.free == s.free + 1 && u.queued == s.queued && Count(u.tasks, Queued) == 0
  {
    var s1 := Apply(cfg, s, ShutdownTimesOut);
    assert s1.tasks == [Task(Dropped, Unset, Unset, false)];
    var s2 := Apply(cfg, s1, Propagate(0));
    assert s2.tasks == [Task(Dropped, Cancelled, Unset, false)];
    u := Apply(cfg, s2, Complete(0));
    assert u.tasks == [Task(Dropped, Cancelled, Unset, true)];
    RunCons(cfg, s2, Complete(0), [], u);
    RunCons(cfg, s1, Propagate(0), [Complete(0)] + [], u);
    RunCons(cfg, s, ShutdownTimesOut, [Propagate(0)] + ([Complete(0)] + []), u);
    labels := [ShutdownTimesOut] + ([Propagate(0)] + ([Complete(0)] + []));
  }

  // ------------------------------------------------------------------
  // The object
  // ------------------------------------------------------------------

  class BoundedExecutor {
    const cfg: Config
    var capacity: int
    var queued: int
    var active: int
    var closed: bool
    ghost var machine: State

    ghost predicate Valid()
      reads this
    {
      && cfg.Valid() && Inv(cfg, machine)
      && capacity == machine.free && queued == machine.queued
      && active == machine.active && closed == machine.closed
    }

    constructor (cfg: Config)
      requires cfg.Valid()
      ensures Valid() && this.cfg == cfg && machine == Init(cfg)
    {
      this.cfg := cfg;
      capacity, queued, active, closed := cfg.Capacity(), 0, 0, false;
      machine := Init(cfg);
    }

    /** The admission part of `run` once the semaphore let submission `t` through;
        `fails` says whether the pool refuses the work. */
    method Enter(t: nat, fails: bool) returns (ok: bool)
      requires Valid() && Zoned(machine, t, Waiting) && machine.free > 0
      modifies this
      ensures Valid()
      ensures ok <==> !old(closed) && !fails
      ensures machine == Apply(cfg, old(machine), if old(closed) then Reject(t) else if fails then StartFails(t) else Admit(t))
    {
      capacity := capacity - 1;
      if closed {
        capacity := capacity + 1;
        InvStep(cfg, machine, Reject(t));
        machine := Apply(cfg, machine, Reject(t));
        return false;
      }
      queued := queued + 1;
      if fails {
        queued := queued - 1;
        capacity := capacity + 1;
        InvStep(cfg, machine, StartFails(t));
        machine := Apply(cfg, machine, StartFails(t));
        return false;
      }
      InvStep(cfg, machine, Admit(t));
      machine := Apply(cfg, machine, Admit(t));
      return true;
    }

    /** The locked prologue of `_execute`; anything may happen before its epilogue. */
    method BeginExecute(t: nat)
      requires Valid() && Enabled(cfg, machine, Start(t))
      modifies this
      ensures Valid() && machine == Apply(cfg, old(machine), Start(t))
    {
      InvStep(cfg, machine, Start(t));
      machine := Apply(cfg, machine, Start(t));
      queued := queued - 1;
      active := active + 1;
    }

    /** The `finally` block of `_execute`, whatever the callable did. */
    method EndExecute(t: nat)
      requires Valid() && Enabled(cfg, machine, Stop(t))
      modifies this
      ensures Valid() && machine == Apply(cfg, old(machine), Stop(t))
    {
      InvStep(cfg, machine, Stop(t));
      machine := Apply(cfg, machine, Stop(t));
      active := active - 1;
    }

    /** `_completed` on the event loop. */
    method OnCompleted(t: nat)
      requires Valid() && Enabled(cfg, machine, Complete(t))
      modifies this
      ensures Valid() && machine == Apply(cfg, old(machine), Complete(t)) && capacity == old(capacity) + 1
    {
      InvStep(cfg, machine, Complete(t));
      machine := Apply(cfg, machine, Complete(t));
      capacity := capacity + 1;
    }
  }
}
