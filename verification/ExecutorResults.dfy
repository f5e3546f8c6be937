/** What a caller of the executor gets back, and that admitted work can always be finished. */
module ExecutorResults {
  import opened Executor

  // ------------------------------------------------------------------
  // The caller's outcome
  // ------------------------------------------------------------------

  /** The caller has a result only if its work was done, and is cancelled only if somebody cancelled it or
      a shutdown dropped its work. */
  predicate CallerOk(task: Task, cancelled: bool) {
    && (task.inner.Settled? ==> task.zone.Left?)
    && (task.inner.Cancelled? ==> task.zone.Dropped?)
    && (task.outer.Settled? ==> task.zone.Left? && task.inner.Settled?)
    && (task.outer.Cancelled? ==> cancelled || task.zone.Dropped?)
  }

  /** The run cancels the caller of submission `t`. */
  predicate Cancels(labels: seq<Label>, t: nat) { CancelCaller(t) in labels }

  lemma {:induction false} CallerStep(cfg: Config, s: State, l: Label, t: nat, cancelled: bool)
    requires TasksOk(s) && Enabled(cfg, s, l) && t < |Apply(cfg, s, l).tasks|
    requires t < |s.tasks| ==> CallerOk(s.tasks[t], cancelled)
    ensures CallerOk(Apply(cfg, s, l).tasks[t], cancelled || l == CancelCaller(t))
  {
    if t < |s.tasks| {
      assert TaskOk(s.tasks[t]);
    }
  }

  lemma {:induction false} CallerRun(cfg: Config, s: State, labels: seq<Label>, u: State, t: nat, cancelled: bool)
    requires Inv(cfg, s) && Run(cfg, s, labels, u) && t < |u.tasks|
    requires t < |s.tasks| ==> CallerOk(s.tasks[t], cancelled)
    ensures CallerOk(u.tasks[t], cancelled || Cancels(labels, t))
    decreases |labels|
  {
    if labels != [] {
      var l, next := labels[0], Apply(cfg, s, labels[0]);
      assert labels == [l] + labels[1..];
      InvStep(cfg, s, l);
      if t < |next.tasks| {
        CallerStep(cfg, s, l, t, cancelled);
      }
      CallerRun(cfg, next, labels[1..], u, t, cancelled || l == CancelCaller(t));
    }
  }

  /** In every run: a caller that has a result has that of work its thread has finished; and a caller is
      cancelled only if it was cancelled itself or a shutdown dropped its work from the queue. */
  lemma {:induction false} CallerOutcomes(cfg: Config, labels: seq<Label>, u: State, t: nat)
    requires cfg.Valid() && Run(cfg, Init(cfg), labels, u) && t < |u.tasks|
    ensures u.tasks[t].outer.Settled? ==> u.tasks[t].zone.Left?
    ensures u.tasks[t].outer.Cancelled? ==> CancelCaller(t) in labels || u.tasks[t].zone.Dropped?
  {
    CallerRun(cfg, Init(cfg), labels, u, t, false);
  }

  // ------------------------------------------------------------------
  // Admitted work finishes
  // ------------------------------------------------------------------

  /** The steps of submission `t` itself: its thread's, and the loop's for it. */
  predicate OwnStep(l: Label, t: nat) {
    || l == Take(t) || l == Start(t) || l == Stop(t) || l == Leave(t)
    || l == Propagate(t) || l == Complete(t) || l == Deliver(t)
  }

  predicate AllOwn(labels: seq<Label>, t: nat) {
    forall i :: 0 <= i < |labels| ==> OwnStep(labels[i], t)
  }

  /** How many of those steps are left at most. */
  function StepsLeft(task: Task): nat {
    (match task.zone
     case InPool => 4
     case Taken => 3
     case OnThread => 2
     case Exiting => 1
     case _ => 0)
    + (if task.inner.Unset? then 1 else 0) + (if task.completed then 0 else 1) + (if task.outer.Unset? then 1 else 0)
  }

  /** Admitted, and not dropped by a shutdown. */
  predicate Alive(task: Task) {
    !task.zone.Waiting? && !task.zone.Refused? && !task.zone.Dropped? && !task.inner.NoFut?
  }

  predicate Finished(task: Task) { task.zone.Left? && task.inner.Settled? && task.completed && !task.outer.Unset? }

  /** The next own step of work that is not finished. */
  lemma {:induction false} NextOwn(cfg: Config, s: State, t: nat) returns (l: Label)
    requires Inv(cfg, s) && t < |s.tasks| && Alive(s.tasks[t]) && CallerOk(s.tasks[t], true) && !Finished(s.tasks[t])
    requires s.tasks[t].zone.InPool? ==> Count(s.tasks, Threaded) < cfg.maxWorkers
    ensures OwnStep(l, t) && Enabled(cfg, s, l)
    ensures var task, next := s.tasks[t], Apply(cfg, s, l).tasks[t];
            && t < |Apply(cfg, s, l).tasks| && Alive(next) && StepsLeft(next) < StepsLeft(task) && !next.zone.InPool?
            && next.outer == (if l == Deliver(t) then Fut.Settled else task.outer)
            && Apply(cfg, s, l).free == s.free + (if task.completed == next.completed then 0 else 1)
  {
    assert TaskOk(s.tasks[t]);
    match s.tasks[t].zone
    case InPool => l := Take(t);
    case Taken => l := Start(t);
    case OnThread => l := Stop(t);
    case Exiting => l := Leave(t);
    case Left =>
      l := if s.tasks[t].inner.Unset? then Propagate(t) else if !s.tasks[t].completed then Complete(t) else Deliver(t);
  }

  lemma {:induction false} Finish(cfg: Config, s: State, t: nat) returns (labels: seq<Label>, u: State)
    requires Inv(cfg, s) && t < |s.tasks| && Alive(s.tasks[t]) && CallerOk(s.tasks[t], true)
    requires s.tasks[t].zone.InPool? ==> Count(s.tasks, Threaded) < cfg.maxWorkers
    ensures Run(cfg, s, labels, u) && AllOwn(labels, t) && |labels| <= StepsLeft(s.tasks[t])
    ensures t < |u.tasks| && Finished(u.tasks[t])
    ensures u.tasks[t].outer == if s.tasks[t].outer.Unset? then Fut.Settled else s.tasks[t].outer
    ensures u.free == s.free + if s.tasks[t].completed then 0 else 1
    decreases StepsLeft(s.tasks[t])
  {
    if Finished(s.tasks[t]) {
      labels, u := [], s;
    } else {
      var l := NextOwn(cfg, s, t);
      var next := Apply(cfg, s, l);
      InvStep(cfg, s, l);
      CallerStep(cfg, s, l, t, true);
      var rest, end := Finish(cfg, next, t);
      RunCons(cfg, s, l, rest, end);
      labels, u := [l] + rest, end;
    }
  }

  /** From every reachable state, work that was admitted and not dropped can be finished by its own steps
      alone, at most seven of them, as soon as a thread is free for it; whatever happened to its caller its
      permit comes back, and a caller that still waits gets the result. */
  lemma {:induction false} AdmittedWorkFinishes(cfg: Config, s: State, t: nat) returns (labels: seq<Label>, u: State)
    requires cfg.Valid() && Reachable(cfg, s) && t < |s.tasks| && Alive(s.tasks[t])
    requires s.tasks[t].zone.InPool? ==> Count(s.tasks, Threaded) < cfg.maxWorkers
    ensures Run(cfg, s, labels, u) && AllOwn(labels, t) && |labels| <= 7
    ensures t < |u.tasks| && u.tasks[t].zone.Left? && u.tasks[t].completed
    ensures u.tasks[t].outer == if s.tasks[t].outer.Unset? then Fut.Settled else s.tasks[t].outer
    ensures u.free == s.free + if s.tasks[t].completed then 0 else 1
  {
    InvReachable(cfg, s);
    var early :| Run(cfg, Init(cfg), early, s);
    CallerRun(cfg, Init(cfg), early, s, t, true);
    labels, u := Finish(cfg, s, t);
  }

  // ------------------------------------------------------------------
  // After a shutdown has begun
  // ------------------------------------------------------------------

  lemma {:induction false} ClosedStep(cfg: Config, s: State, l: Label)
    requires Enabled(cfg, s, l) && s.closed
    ensures Apply(cfg, s, l).closed
  {
  }

  /** Once a shutdown has begun nobody is admitted any more. */
  lemma {:induction false} ClosedAdmitsNobody(cfg: Config, s: State, labels: seq<Label>, u: State, t: nat)
    requires s.closed && Run(cfg, s, labels, u)
    ensures u.closed && !Enabled(cfg, u, Admit(t))
    decreases |labels|
  {
    if labels != [] {
      ClosedStep(cfg, s, labels[0]);
      ClosedAdmitsNobody(cfg, Apply(cfg, s, labels[0]), labels[1..], u, t);
    }
  }

  /** A waiting caller is admitted exactly while no shutdown has begun and fewer submissions than
      `max_workers + queue_bound` hold a permit. */
  lemma {:induction false} AdmitsExactly(cfg: Config, s: State, t: nat)
    requires cfg.Valid() && Reachable(cfg, s)
    ensures Enabled(cfg, s, Admit(t)) <==>
            && t < |s.tasks| && s.tasks[t].zone.Waiting? && !s.closed
            && Count(s.tasks, Holding) < cfg.maxWorkers + cfg.queueBound
  {
    CapacityConserved(cfg, s);
  }

  lemma {:induction false} RefusedRun(cfg: Config, s: State, labels: seq<Label>, u: State, t: nat)
    requires Inv(cfg, s) && Run(cfg, s, labels, u) && t < |s.tasks| && s.tasks[t].zone.Refused?
    ensures t < |u.tasks| && u.tasks[t] == s.tasks[t]
    decreases |labels|
  {
    if labels != [] {
      assert TaskOk(s.tasks[t]);
      InvStep(cfg, s, labels[0]);
      RefusedRun(cfg, Apply(cfg, s, labels[0]), labels[1..], u, t);
    }
  }

  /** A caller whose admission timed out, that found the executor closed, or whose work the pool refused is
      turned away for good: it holds no permit, its work never runs, and the semaphore is as before. */
  lemma {:induction false} TurnedAway(cfg: Config, s: State, l: Label, labels: seq<Label>, u: State)
    requires cfg.Valid() && Reachable(cfg, s) && Enabled(cfg, s, l) && (l.Expire? || l.Reject? || l.StartFails?)
    requires Run(cfg, Apply(cfg, s, l), labels, u)
    ensures Apply(cfg, s, l).free == s.free && Apply(cfg, s, l).queued == s.queued
    ensures l.t < |u.tasks| && u.tasks[l.t].zone.Refused? && !Holding(u.tasks[l.t]) && u.tasks[l.t].outer.NoFut?
  {
    InvReachable(cfg, s);
    InvStep(cfg, s, l);
    assert TaskOk(s.tasks[l.t]);
    RefusedRun(cfg, Apply(cfg, s, l), labels, u, l.t);
  }
}
