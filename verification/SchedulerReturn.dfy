/** What a shutdown returns, whom it fails, and how every accepted item ends. */
module SchedulerReturn {
  import opened SchedulerModel
  import opened SchedulerCompose
  import opened SchedulerPlacement
  import opened SchedulerOrder
  import opened SchedulerWorkers
  import opened SchedulerResults
  import opened SchedulerShutdown

  // ------------------------------------------------------------------
  // The returned value
  // ------------------------------------------------------------------

  /** One `join` with the `is_alive` that follows it: others step first, and a thread found dead has
      exited. A thread that has exited may still be found alive. */
  datatype Join = Join(labels: seq<Label>, at: State, dead: bool)

  /** The joins of workers `w`, `w + 1`, ... from `s` on. */
  predicate Joins(cfg: Config, f: Text -> Vec, s: State, w: nat, joins: seq<Join>)
    decreases |joins|
  {
    joins == [] ||
    (&& Run(cfg, f, s, joins[0].labels, joins[0].at)
     && (joins[0].dead ==> w < |joins[0].at.workers| && joins[0].at.workers[w].Exited?)
     && Joins(cfg, f, joins[0].at, w + 1, joins[1..]))
  }

  function LastJoin(s: State, joins: seq<Join>): State
    decreases |joins|
  {
    if joins == [] then s else LastJoin(joins[0].at, joins[1..])
  }

  predicate InQueue(s: State, id: nat) { id in s.live || id in s.background }

  /** `shutdown` after its critical section: it reads `_started` in `o`, joins the workers one after the
      other, empties the queues in `s`, and is done with its failing loop in `u`; anybody else may step
      at any time, also during that loop. */
  predicate Shutdown(
    cfg: Config, f: Text -> Vec, o: State, joins: seq<Join>, before: seq<Label>, s: State, after: seq<Label>, u: State)
  {
    && Joins(cfg, f, o, 0, joins)
    && |joins| == (if o.started then |o.workers| else 0)
    && Run(cfg, f, LastJoin(o, joins), before, s)
    && s.closed
    && Run(cfg, f, Apply(cfg, f, s, FailRemaining), after, u)
    && forall i :: 0 <= i < |u.leftover| ==> !InQueue(s, u.leftover[i])
  }

  predicate FoundDead(joins: seq<Join>) {
    forall i :: 0 <= i < |joins| ==> joins[i].dead
  }

  /** The value of `shutdown`: no thread was found alive, and nothing is pending in the end. */
  predicate Returns(joins: seq<Join>, u: State) {
    FoundDead(joins) && Total(u) == 0
  }

  /** Once the queues are empty after a close they stay empty: nothing is admitted any more. */
  lemma {:induction false} EmptyAfterShutdown(
    cfg: Config, f: Text -> Vec, s: State, labels: seq<Label>, t: State)
    requires s.closed && Total(s) == 0 && Run(cfg, f, s, labels, t)
    ensures t.closed && Total(t) == 0
    decreases |labels|
  {
    if labels != [] {
      EmptyStep(cfg, f, s, labels[0]);
      EmptyAfterShutdown(cfg, f, Apply(cfg, f, s, labels[0]), labels[1..], t);
    }
  }

  lemma {:induction false} EmptyStep(cfg: Config, f: Text -> Vec, s: State, l: Label)
    requires s.closed && Total(s) == 0 && Enabled(cfg, s, l)
    ensures Apply(cfg, f, s, l).closed && Total(Apply(cfg, f, s, l)) == 0
  {
  }

  lemma {:induction false} ExitedStep(cfg: Config, f: Text -> Vec, s: State, l: Label, w: nat)
    requires Enabled(cfg, s, l) && s.started && w < |s.workers| && s.workers[w].Exited?
    ensures w < |Apply(cfg, f, s, l).workers| && Apply(cfg, f, s, l).workers[w].Exited?
  {
  }

  predicate FirstExited(s: State, k: nat) {
    k <= |s.workers| && forall w :: 0 <= w < k ==> s.workers[w].Exited?
  }

  lemma {:induction false} ClosedRun(cfg: Config, f: Text -> Vec, s: State, labels: seq<Label>, t: State, k: nat)
    requires Run(cfg, f, s, labels, t)
    ensures s.closed ==> t.closed
    ensures s.started ==> t.started
    ensures s.started && FirstExited(s, k) ==> FirstExited(t, k)
    decreases |labels|
  {
    if labels != [] {
      var next := Apply(cfg, f, s, labels[0]);
      StaysClosed(cfg, f, s, labels[0]);
      if s.started && FirstExited(s, k) {
        forall w | 0 <= w < k ensures w < |next.workers| && next.workers[w].Exited? {
          ExitedStep(cfg, f, s, labels[0], w);
        }
      }
      ClosedRun(cfg, f, next, labels[1..], t, k);
    }
  }

  lemma {:induction false} JoinsReach(cfg: Config, f: Text -> Vec, s: State, w: nat, joins: seq<Join>)
    requires Reachable(cfg, f, s) && Joins(cfg, f, s, w, joins)
    ensures Reachable(cfg, f, LastJoin(s, joins))
    decreases |joins|
  {
    if joins != [] {
      ReachableRun(cfg, f, s, joins[0].labels, joins[0].at);
      JoinsReach(cfg, f, joins[0].at, w + 1, joins[1..]);
    }
  }

  lemma {:induction false} OneMoreExited(s: State, w: nat)
    requires FirstExited(s, w) && w < |s.workers| && s.workers[w].Exited?
    ensures FirstExited(s, w + 1)
  {
  }

  /** Threads found dead one after the other are all gone at the end. */
  lemma {:induction false} JoinsSeen(cfg: Config, f: Text -> Vec, s: State, w: nat, joins: seq<Join>)
    requires Joins(cfg, f, s, w, joins)
    ensures s.closed ==> LastJoin(s, joins).closed
    ensures s.started ==> LastJoin(s, joins).started
    ensures s.started && FirstExited(s, w) && FoundDead(joins) ==> FirstExited(LastJoin(s, joins), w + |joins|)
    decreases |joins|
  {
    if joins != [] {
      var next := joins[0].at;
      ClosedRun(cfg, f, s, joins[0].labels, next, w);
      if s.started && FirstExited(s, w) && FoundDead(joins) {
        OneMoreExited(next, w);
      }
      JoinsSeen(cfg, f, next, w + 1, joins[1..]);
    }
  }

  // ------------------------------------------------------------------
  // The failing loop
  // ------------------------------------------------------------------

  /** The `for` loop of `_fail_remaining`: its own leftovers stand behind those of others. */
  function FailLoop(n: nat, behind: nat): seq<Label> {
    if n == 0 then [] else [FailOne(behind)] + FailLoop(n - 1, behind)
  }

  lemma {:induction false} FailFirst(cfg: Config, f: Text -> Vec, s: State, others: seq<nat>, own: seq<nat>)
    requires s.leftover == others + own && own != [] && own[0] < |s.futures|
    ensures Enabled(cfg, s, FailOne(|others|))
    ensures Apply(cfg, f, s, FailOne(|others|)) ==
            s.(futures := s.futures[own[0] := FailFuture(s.futures[own[0]])], leftover := others + own[1..])
  {
    assert s.leftover[|others|] == own[0];
    assert s.leftover[..|others|] == others && s.leftover[|others| + 1..] == own[1..];
  }

  /** Exactly the listed futures are failed. */
  predicate AllFailed(fs: seq<Future>, fs': seq<Future>, own: seq<nat>) {
    && |fs'| == |fs|
    && forall id :: 0 <= id < |fs| ==> fs'[id] == if id in own then FailFuture(fs[id]) else fs[id]
  }

  /** Failing twice is failing once. */
  lemma {:induction false} FailedCons(fs: seq<Future>, fs': seq<Future>, own: seq<nat>)
    requires own != [] && own[0] < |fs| && AllFailed(fs[own[0] := FailFuture(fs[own[0]])], fs', own[1..])
    ensures AllFailed(fs, fs', own)
  {
    assert own == [own[0]] + own[1..];
  }

  lemma {:induction false} FailOwn(cfg: Config, f: Text -> Vec, s: State, others: seq<nat>, own: seq<nat>) returns (u: State)
    requires s.leftover == others + own && Known(s.futures, own)
    ensures Run(cfg, f, s, FailLoop(|own|, |others|), u)
    ensures u.leftover == others && AllFailed(s.futures, u.futures, own)
    decreases |own|
  {
    if own == [] {
      u := s;
      assert others + own == others;
    } else {
      var next := s.(futures := s.futures[own[0] := FailFuture(s.futures[own[0]])], leftover := others + own[1..]);
      FailFirst(cfg, f, s, others, own);
      u := FailOwn(cfg, f, next, others, own[1..]);
      FailedCons(s.futures, u.futures, own);
      RunCons(cfg, f, s, FailOne(|others|), next, FailLoop(|own| - 1, |others|), u);
    }
  }

  /** Queued, and its caller still waits. */
  predicate Wanted(s: State, id: nat) { InQueue(s, id) && id < |s.futures| && s.futures[id].Pending? }

  /** An accepted item nobody had cancelled is failed instead of inferred. */
  predicate FailedBetween(s: State, u: State, id: nat) {
    && id < |s.futures| && id < |u.futures|
    && s.futures[id].Pending? && u.futures[id] == Finished(Closed)
  }

  lemma {:induction false} OwnKnown(s: State)
    requires QueuesOk(s)
    ensures Known(s.futures, s.live + s.background)
    ensures forall id :: id in s.live + s.background <==> InQueue(s, id)
  {
  }

  lemma {:induction false} Sweep(cfg: Config, f: Text -> Vec, s: State)
    requires s.closed
    ensures var t := Apply(cfg, f, s, FailRemaining);
            && t.leftover == s.leftover + (s.live + s.background) && t.futures == s.futures
            && t.closed && Total(t) == 0
  {
    assert s.leftover + s.live + s.background == s.leftover + (s.live + s.background);
  }

  lemma {:induction false} Ends(cfg: Config, f: Text -> Vec, s: State) returns (u: State)
    requires s.closed && QueuesOk(s)
    ensures Run(cfg, f, Apply(cfg, f, s, FailRemaining), FailLoop(Total(s), |s.leftover|), u)
    ensures u.closed && Total(u) == 0 && |u.futures| == |s.futures|
    ensures u.leftover == s.leftover
    ensures forall id :: 0 <= id < |s.futures| ==>
              u.futures[id] == if InQueue(s, id) then FailFuture(s.futures[id]) else s.futures[id]
  {
    var next := Apply(cfg, f, s, FailRemaining);
    OwnKnown(s);
    Sweep(cfg, f, s);
    u := FailOwn(cfg, f, next, s.leftover, s.live + s.background);
    EmptyAfterShutdown(cfg, f, next, FailLoop(Total(s), |s.leftover|), u);
  }

  // ------------------------------------------------------------------
  // Whom a shutdown that returns True fails
  // ------------------------------------------------------------------

  /** A started scheduler that was never asked not to drain has nothing queued once its workers are gone. */
  lemma {:induction false} DrainedIsEmpty(cfg: Config, f: Text -> Vec, s: State)
    requires cfg.Valid() && Reachable(cfg, f, s) && s.started && AllExited(s) && !s.aborted
    ensures Total(s) == 0
  {
    InvReachable(cfg, f, s);
    assert WorkerAwareOf(cfg, s, s.workers[0]);
  }

  /** Some step cancels the item while it waits to be failed. */
  predicate Withdrawn(cfg: Config, f: Text -> Vec, s: State, labels: seq<Label>, id: nat)
    decreases |labels|
  {
    && labels != [] && Enabled(cfg, s, labels[0]) && id in s.leftover
    && (labels[0] == Cancel(id) || Withdrawn(cfg, f, Apply(cfg, f, s, labels[0]), labels[1..], id))
  }

  /** What one step does to a left-over item: it stays, or it is failed. */
  predicate LeftMoves(s: State, t: State, l: Label, id: nat) {
    && id < |s.futures| && id < |t.futures|
    && (id in t.leftover ==> t.futures[id] == if l == Cancel(id) then CancelFuture(s.futures[id]) else s.futures[id])
    && (id !in t.leftover ==> l != Cancel(id) && t.futures[id] == FailFuture(s.futures[id]))
  }

  lemma {:induction false} LeftFailOne(cfg: Config, f: Text -> Vec, s: State, index: nat, id: nat)
    requires Placed(s) && Enabled(cfg, s, FailOne(index)) && id in s.leftover
    ensures LeftMoves(s, Apply(cfg, f, s, FailOne(index)), FailOne(index), id)
  {
    var t := Apply(cfg, f, s, FailOne(index));
    RemovedFromQueues(s, index);
    assert s.leftover == s.leftover[..index] + [s.leftover[index]] + s.leftover[index + 1..];
  }

  lemma {:induction false} LeftTake(cfg: Config, s: State, w: nat, id: nat)
    requires Placed(s) && Enabled(cfg, s, Compose(w)) && id in s.leftover
    ensures LeftMoves(s, ApplyCompose(cfg, s, w), Compose(w), id)
  {
    var c := ComposeOf(cfg, s.futures, s.live, s.background, s.backgroundInflight);
    LeftElsewhere(s, id);
    assert id !in s.live[..c.liveCut] + s.background[..c.backgroundCut];
  }

  lemma {:induction false} LeftElsewhere(s: State, id: nat)
    requires Placed(s) && id in s.leftover
    ensures id < |s.futures| && (s.futures[id].Pending? || s.futures[id].Cancelled?) && !InQueue(s, id)
    ensures forall v :: 0 <= v < |s.workers| ==> id !in Unsettled(s.workers[v])
  {
    HeldInQueue(s, id);
    CountMember(s.leftover, id);
    CountMember(s.live, id);
    CountMember(s.background, id);
  }

  lemma {:induction false} LeftSettle(cfg: Config, s: State, w: nat, id: nat)
    requires Placed(s) && Enabled(cfg, s, Settle(w)) && id in s.leftover
    ensures LeftMoves(s, ApplySettle(s, w), Settle(w), id)
  {
    LeftElsewhere(s, id);
    var batch, done := s.workers[w].batch, s.workers[w].done;
    assert Unsettled(s.workers[w])[0] == batch[done];
  }

  lemma {:induction false} LeftOther(cfg: Config, f: Text -> Vec, s: State, l: Label, id: nat)
    requires Placed(s) && Enabled(cfg, s, l) && id in s.leftover && !l.Compose? && !l.Settle? && !l.FailOne?
    ensures LeftMoves(s, Apply(cfg, f, s, l), l, id)
  {
    LeftElsewhere(s, id);
  }

  lemma {:induction false} LeftStep(cfg: Config, f: Text -> Vec, s: State, l: Label, id: nat)
    requires Placed(s) && Enabled(cfg, s, l) && id in s.leftover
    ensures LeftMoves(s, Apply(cfg, f, s, l), l, id)
  {
    match l
    case Compose(w) => LeftTake(cfg, s, w, id);
    case Settle(w) => LeftSettle(cfg, s, w, id);
    case FailOne(index) => LeftFailOne(cfg, f, s, index, id);
    case _ => LeftOther(cfg, f, s, l, id);
  }

  /** However the failing loops interleave with everything else, a left-over item that is gone was
      failed, unless its caller had cancelled it in time. */
  lemma {:induction false} LeftRun(cfg: Config, f: Text -> Vec, s: State, labels: seq<Label>, u: State, id: nat)
    requires cfg.Valid() && Inv(cfg, f, s) && Run(cfg, f, s, labels, u) && id in s.leftover && id !in u.leftover
    ensures id < |s.futures| && id < |u.futures|
    ensures u.futures[id] ==
            if s.futures[id].Pending? && !Withdrawn(cfg, f, s, labels, id) then Finished(Closed) else Notified
    decreases |labels|
  {
    var t := Apply(cfg, f, s, labels[0]);
    LeftElsewhere(s, id);
    LeftStep(cfg, f, s, labels[0], id);
    InvStep(cfg, f, s, labels[0]);
    if id in t.leftover {
      LeftRun(cfg, f, t, labels[1..], u, id);
    } else {
      SettledRun(cfg, f, t, labels[1..], u, id);
    }
  }

  /** Taken out of the queue by this shutdown, never cancelled, and failed. */
  predicate FailedByIt(s: State, u: State, id: nat) { InQueue(s, id) && FailedBetween(s, u, id) }

  /** Queued and uncancelled when the queues are emptied, and not cancelled before it is failed. */
  predicate StillWanted(cfg: Config, f: Text -> Vec, s: State, after: seq<Label>, id: nat)
    requires s.closed
  {
    Wanted(s, id) && !Withdrawn(cfg, f, Apply(cfg, f, s, FailRemaining), after, id)
  }

  lemma {:induction false} FailsExactly(cfg: Config, f: Text -> Vec, s: State, after: seq<Label>, u: State, id: nat)
    requires cfg.Valid() && Inv(cfg, f, s) && s.closed && Run(cfg, f, Apply(cfg, f, s, FailRemaining), after, u)
    requires id !in u.leftover
    ensures FailedByIt(s, u, id) <==> StillWanted(cfg, f, s, after, id)
  {
    var t := Apply(cfg, f, s, FailRemaining);
    if InQueue(s, id) {
      Sweep(cfg, f, s);
      InvStep(cfg, f, s, FailRemaining);
      LeftRun(cfg, f, t, after, u, id);
    }
  }

  lemma {:induction false} AsManyWorkers(cfg: Config, f: Text -> Vec, s: State)
    requires cfg.Valid() && Reachable(cfg, f, s)
    ensures |s.workers| == cfg.workers && Placed(s)
  {
    InvReachable(cfg, f, s);
  }

  /** What holds when the queues are emptied after all threads were found dead. */
  lemma {:induction false} SweptState(
    cfg: Config, f: Text -> Vec, o: State, joins: seq<Join>, before: seq<Label>, s: State)
    requires cfg.Valid() && Reachable(cfg, f, o) && o.closed && Joins(cfg, f, o, 0, joins)
    requires |joins| == (if o.started then |o.workers| else 0) && Run(cfg, f, LastJoin(o, joins), before, s)
    ensures Reachable(cfg, f, s) && s.closed
    ensures o.started && FoundDead(joins) && !s.aborted ==> Total(s) == 0
  {
    var t := LastJoin(o, joins);
    AsManyWorkers(cfg, f, o);
    JoinsReach(cfg, f, o, 0, joins);
    JoinsSeen(cfg, f, o, 0, joins);
    ReachableRun(cfg, f, t, before, s);
    ClosedRun(cfg, f, t, before, s, |joins|);
    AsManyWorkers(cfg, f, s);
    if o.started && FoundDead(joins) && !s.aborted {
      assert AllExited(s);
      DrainedIsEmpty(cfg, f, s);
    }
  }

  /** The value `shutdown` returns, and what it is worth, for every interleaving of its joins and its
      failing loop with all other steps. The pending count it reads is always zero, so the value is what
      the joins saw. It fails exactly the items that were queued and uncancelled when it emptied the
      queues and were not cancelled before their turn. And a shutdown that returns True has failed such
      an item if and only if there is one and the scheduler was not started or some shutdown had asked
      not to drain. */
  lemma {:induction false} ReturnedValueExactly(
    cfg: Config, f: Text -> Vec, o: State, joins: seq<Join>, before: seq<Label>, s: State, after: seq<Label>, u: State)
    requires cfg.Valid() && Reachable(cfg, f, o) && o.closed && Shutdown(cfg, f, o, joins, before, s, after, u)
    ensures Returns(joins, u) <==> FoundDead(joins)
    ensures forall id :: FailedByIt(s, u, id) <==> StillWanted(cfg, f, s, after, id)
    ensures Returns(joins, u) ==>
              ((exists id :: FailedByIt(s, u, id)) <==>
               (!o.started || s.aborted) && exists id :: StillWanted(cfg, f, s, after, id))
  {
    SweptState(cfg, f, o, joins, before, s);
    InvReachable(cfg, f, s);
    Sweep(cfg, f, s);
    EmptyAfterShutdown(cfg, f, Apply(cfg, f, s, FailRemaining), after, u);
    forall id: nat ensures FailedByIt(s, u, id) <==> StillWanted(cfg, f, s, after, id) {
      if InQueue(s, id) {
        FailsExactly(cfg, f, s, after, u, id);
      }
    }
    if o.started && FoundDead(joins) && !s.aborted {
      assert forall id :: !InQueue(s, id);
    }
  }

  // ------------------------------------------------------------------
  // How every accepted item ends
  // ------------------------------------------------------------------

  function Queued(s: State): set<nat> { set i | 0 <= i < Total(s) :: (s.live + s.background)[i] }

  /** `before`, and the items that some `_fail_remaining` of the run took out of the queues. */
  function Swept(cfg: Config, f: Text -> Vec, s: State, labels: seq<Label>, before: set<nat>): set<nat>
    decreases |labels|
  {
    if labels == [] || !Enabled(cfg, s, labels[0]) then before
    else Swept(cfg, f, Apply(cfg, f, s, labels[0]), labels[1..], SweptAfter(s, labels[0], before))
  }

  function SweptAfter(s: State, l: Label, before: set<nat>): set<nat> {
    if l.FailRemaining? then before + Queued(s) else before
  }

  /** A swept item is out of the queues, never ran, and is left over or settled. */
  predicate SweptId(s: State, id: nat) {
    && id < |s.futures| && !InQueue(s, id) && !Ran(s.futures[id])
    && (id in s.leftover || SchedulerPlacement.Settled(s.futures[id]))
  }

  /** Only swept items are left over or failed by a shutdown. */
  predicate SweptOk(s: State, swept: set<nat>) {
    && (forall id :: id in swept ==> SweptId(s, id))
    && (forall i :: 0 <= i < |s.leftover| ==> s.leftover[i] in swept)
    && (forall id :: 0 <= id < |s.futures| && s.futures[id] == Finished(Closed) ==> id in swept)
  }

  lemma {:induction false} SweptTake(cfg: Config, s: State, w: nat, swept: set<nat>)
    requires Enabled(cfg, s, Compose(w)) && SweptOk(s, swept)
    ensures SweptOk(ApplyCompose(cfg, s, w), swept)
  {
    var c := ComposeOf(cfg, s.futures, s.live, s.background, s.backgroundInflight);
    var t := ApplyCompose(cfg, s, w);
    forall id | id in swept ensures SweptId(t, id) {
      assert SweptId(s, id);
      assert id !in s.live[..c.liveCut] + s.background[..c.backgroundCut];
    }
  }

  lemma {:induction false} SweptSettle(cfg: Config, s: State, w: nat, swept: set<nat>)
    requires Enabled(cfg, s, Settle(w)) && SweptOk(s, swept) && WorkerOk(s.futures, s.workers[w]) && OutsOk(s.workers[w])
    ensures SweptOk(ApplySettle(s, w), swept)
  {
    var batch, done := s.workers[w].batch, s.workers[w].done;
    assert Unsettled(s.workers[w])[0] == batch[done];
    var t := ApplySettle(s, w);
    forall id | id in swept ensures SweptId(t, id) {
      assert SweptId(s, id);
    }
  }

  lemma {:induction false} SweptFail(cfg: Config, f: Text -> Vec, s: State, index: nat, swept: set<nat>)
    requires Enabled(cfg, s, FailOne(index)) && SweptOk(s, swept) && QueuesOk(s)
    ensures SweptOk(Apply(cfg, f, s, FailOne(index)), swept)
  {
    var id := s.leftover[index];
    var t := Apply(cfg, f, s, FailOne(index));
    assert s.leftover == s.leftover[..index] + [id] + s.leftover[index + 1..];
    forall other | other in swept ensures SweptId(t, other) {
      assert SweptId(s, other);
    }
  }

  lemma {:induction false} SweptSweep(cfg: Config, f: Text -> Vec, s: State, swept: set<nat>)
    requires Enabled(cfg, s, FailRemaining) && SweptOk(s, swept) && QueuesOk(s)
    ensures SweptOk(Apply(cfg, f, s, FailRemaining), swept + Queued(s))
  {
    var t := Apply(cfg, f, s, FailRemaining);
    var own := s.live + s.background;
    assert t.leftover == s.leftover + own;
    forall id | id in swept + Queued(s) ensures SweptId(t, id) {
      if id in swept {
        assert SweptId(s, id);
      } else {
        var i :| 0 <= i < |own| && own[i] == id;
        assert t.leftover[|s.leftover| + i] == id;
        assert if i < |s.live| then own[i] == s.live[i] else own[i] == s.background[i - |s.live|];
      }
    }
  }

  lemma {:induction false} SweptOther(cfg: Config, f: Text -> Vec, s: State, l: Label, swept: set<nat>)
    requires Enabled(cfg, s, l) && SweptOk(s, swept) && |s.items| == |s.futures|
    requires !l.Compose? && !l.Settle? && !l.FailOne? && !l.FailRemaining?
    ensures SweptOk(Apply(cfg, f, s, l), swept)
  {
    var t := Apply(cfg, f, s, l);
    forall id | id in swept ensures SweptId(t, id) {
      assert SweptId(s, id);
    }
  }

  lemma {:induction false} SweptStep(cfg: Config, f: Text -> Vec, s: State, l: Label, swept: set<nat>)
    requires Enabled(cfg, s, l) && SweptOk(s, swept) && QueuesOk(s) && WorkersOk(s.futures, s.workers)
    requires l.Settle? ==> OutsOk(s.workers[l.w])
    ensures SweptOk(Apply(cfg, f, s, l), SweptAfter(s, l, swept))
  {
    match l
    case Compose(w) => SweptTake(cfg, s, w, swept);
    case Settle(w) => SweptSettle(cfg, s, w, swept);
    case FailOne(index) => SweptFail(cfg, f, s, index, swept);
    case FailRemaining => SweptSweep(cfg, f, s, swept);
    case _ => SweptOther(cfg, f, s, l, swept);
  }

  lemma {:induction false} SweptInvStep(cfg: Config, f: Text -> Vec, s: State, l: Label, swept: set<nat>)
    requires Inv(cfg, f, s) && Enabled(cfg, s, l) && SweptOk(s, swept)
    ensures SweptOk(Apply(cfg, f, s, l), SweptAfter(s, l, swept))
  {
    if l.Settle? {
      assert PairedWith(f, s.items, s.workers[l.w]);
    }
    SweptStep(cfg, f, s, l, swept);
  }

  lemma {:induction false} SweptRun(
    cfg: Config, f: Text -> Vec, s: State, labels: seq<Label>, t: State, swept: set<nat>)
    requires cfg.Valid() && Inv(cfg, f, s) && Run(cfg, f, s, labels, t) && SweptOk(s, swept)
    ensures SweptOk(t, Swept(cfg, f, s, labels, swept))
    decreases |labels|
  {
    if labels != [] {
      SweptInvStep(cfg, f, s, labels[0], swept);
      InvStep(cfg, f, s, labels[0]);
      SweptRun(cfg, f, Apply(cfg, f, s, labels[0]), labels[1..], t, SweptAfter(s, labels[0], swept));
    }
  }

  /** The item reached its end through a finished forward pass. */
  predicate Inferred(s: State, id: nat) {
    && id < |s.futures|
    && id in Flatten(s.history)
    && s.futures[id].Finished?
    && !s.futures[id].outcome.Closed?
  }

  /** However a run reaches the point where all workers have exited, every accepted item was inferred,
      was cancelled by its caller, was taken by some shutdown's `_fail_remaining`, or is still queued
      because some shutdown asked not to drain; it was inferred exactly when none of the others holds,
      and only items taken by a shutdown are failed. */
  lemma {:induction false} DrainedShutdown(cfg: Config, f: Text -> Vec, labels: seq<Label>, t: State, id: nat)
    requires cfg.Valid() && Run(cfg, f, Init(cfg), labels, t) && AllExited(t) && id < |t.items|
    ensures EndedAs(t, id, Swept(cfg, f, Init(cfg), labels, {}))
  {
    SweptFromInit(cfg, f, labels, t);
    DrainedItem(cfg, f, t, id, Swept(cfg, f, Init(cfg), labels, {}));
  }

  lemma {:induction false} SweptFromInit(cfg: Config, f: Text -> Vec, labels: seq<Label>, t: State)
    requires cfg.Valid() && Run(cfg, f, Init(cfg), labels, t)
    ensures Inv(cfg, f, t) && SweptOk(t, Swept(cfg, f, Init(cfg), labels, {}))
  {
    InvInit(cfg, f);
    SweptInit(cfg);
    InvRun(cfg, f, Init(cfg), labels, t);
    SweptRun(cfg, f, Init(cfg), labels, t, {});
  }

  lemma {:induction false} SweptInit(cfg: Config)
    ensures SweptOk(Init(cfg), {})
  {
  }

  lemma {:induction false} DrainedItem(cfg: Config, f: Text -> Vec, t: State, id: nat, swept: set<nat>)
    requires cfg.Valid() && Inv(cfg, f, t) && SweptOk(t, swept) && AllExited(t) && id < |t.items|
    ensures EndedAs(t, id, swept)
  {
    ExitedItem(t, id, swept);
    QueuedWhenAborted(cfg, t);
  }

  predicate EndedAs(t: State, id: nat, swept: set<nat>) {
    && id < |t.futures| == |t.items|
    && (Inferred(t, id) <==> !t.futures[id].Notified? && id !in swept && !InQueue(t, id))
    && (InQueue(t, id) ==> t.aborted)
    && (id in swept ==> id in t.leftover || t.futures[id] == Finished(Closed) || t.futures[id].Notified?)
    && (t.futures[id] == Finished(Closed) ==> id in swept)
  }

  lemma {:induction false} QueuedWhenAborted(cfg: Config, t: State)
    requires cfg.Valid() && Wakeful(cfg, t) && AllExited(t)
    ensures Total(t) > 0 ==> t.aborted
  {
    assert WorkerAwareOf(cfg, t, t.workers[0]);
  }

  lemma {:induction false} ExitedItem(t: State, id: nat, swept: set<nat>)
    requires Placed(t) && Ordered(t) && AllExited(t) && id < |t.items| && SweptOk(t, swept)
    ensures Inferred(t, id) <==> !t.futures[id].Notified? && id !in swept && !InQueue(t, id)
    ensures id in swept ==> id in t.leftover || t.futures[id] == Finished(Closed) || t.futures[id].Notified?
  {
    TakenOnce(t, id);
    assert OnePlace(t, id);
    InBatchesIdle(t.workers, id);
    CountMember(t.live, id);
    CountMember(t.background, id);
    CountMember(t.leftover, id);
    if id in swept {
      assert SweptId(t, id);
    }
    QueuedOnce(t, id);
  }

  /** An item is queued only in the queue of its class. */
  lemma {:induction false} QueuedOnce(t: State, id: nat)
    requires QueuesOk(t) && id < |t.items|
    ensures InQueue(t, id) <==> id in Queue(t, t.items[id].cls)
  {
  }

  // ------------------------------------------------------------------
  // Shutdowns that return True and fail somebody
  // ------------------------------------------------------------------

  /** One live item admitted; nothing else has happened. */
  function Accepted(cfg: Config, f: Text -> Vec): State
    requires cfg.Valid()
  {
    Apply(cfg, f, Init(cfg), Admit([""], Live))
  }

  lemma {:induction false} AcceptedIs(cfg: Config, f: Text -> Vec)
    requires cfg.Valid()
    ensures var s := Accepted(cfg, f);
            && Reachable(cfg, f, s) && s.live == [0] && s.background == [] && s.futures == [Pending] && s.leftover == []
            && !s.started && !s.closed && !s.aborted && |s.workers| == cfg.workers
  {
    assert Run(cfg, f, Init(cfg), [], Init(cfg));
    ReachableStep(cfg, f, Init(cfg), Admit([""], Live));
  }

  /** The workers that still stand exit one after the other. */
  lemma {:induction false} ExitAll(cfg: Config, f: Text -> Vec, s: State, k: nat) returns (t: State)
    requires ShouldExit(s) && k <= |s.workers| && Reachable(cfg, f, s)
    requires forall w :: 0 <= w < |s.workers| ==> s.workers[w] == if w < k then Exited else Awake
    ensures Reachable(cfg, f, t) && t == s.(workers := t.workers) && AllExited(t)
    decreases |s.workers| - k
  {
    if k == |s.workers| {
      t := s;
    } else {
      ReachableStep(cfg, f, s, Exit(k));
      t := ExitAll(cfg, f, Apply(cfg, f, s, Exit(k)), k + 1);
    }
  }

  /** Joins that find every thread dead at once. */
  function AtOnce(o: State): seq<Join> {
    if o.started then seq(|o.workers|, i => Join([], o, true)) else []
  }

  lemma {:induction false} JoinsAtOnce(cfg: Config, f: Text -> Vec, o: State, w: nat, joins: seq<Join>)
    requires AllExited(o) && w + |joins| == |o.workers|
    requires forall i :: 0 <= i < |joins| ==> joins[i] == Join([], o, true)
    ensures Joins(cfg, f, o, w, joins) && LastJoin(o, joins) == o
    decreases |joins|
  {
    if joins != [] {
      JoinsAtOnce(cfg, f, o, w + 1, joins[1..]);
    }
  }

  /** A shutdown that nobody interrupts: it finds no thread alive, and fails what is queued. */
  lemma {:induction false} ShutdownAlone(cfg: Config, f: Text -> Vec, o: State) returns (u: State)
    requires cfg.Valid() && Reachable(cfg, f, o) && o.closed && (!o.started || AllExited(o))
    ensures Shutdown(cfg, f, o, AtOnce(o), [], o, FailLoop(Total(o), |o.leftover|), u) && Returns(AtOnce(o), u)
    ensures |u.futures| == |o.futures|
    ensures forall id :: 0 <= id < |o.futures| ==>
              u.futures[id] == if InQueue(o, id) then FailFuture(o.futures[id]) else o.futures[id]
  {
    AsManyWorkers(cfg, f, o);
    u := Ends(cfg, f, o);
    NoneLeftIsQueued(o);
    DeadAtOnce(cfg, f, o);
  }

  lemma {:induction false} DeadAtOnce(cfg: Config, f: Text -> Vec, o: State)
    requires !o.started || AllExited(o)
    ensures Joins(cfg, f, o, 0, AtOnce(o)) && LastJoin(o, AtOnce(o)) == o
    ensures |AtOnce(o)| == (if o.started then |o.workers| else 0)
    ensures FoundDead(AtOnce(o))
  {
    if o.started {
      JoinsAtOnce(cfg, f, o, 0, AtOnce(o));
    }
  }

  lemma {:induction false} NoneLeftIsQueued(o: State)
    requires Placed(o)
    ensures forall i :: 0 <= i < |o.leftover| ==> !InQueue(o, o.leftover[i])
  {
    forall i | 0 <= i < |o.leftover| ensures !InQueue(o, o.leftover[i]) {
      LeftElsewhere(o, o.leftover[i]);
    }
  }

  /** A shutdown of a scheduler that was never started returns True and fails the queued item. */
  lemma {:induction false} NeverStartedShutdown(cfg: Config, f: Text -> Vec) returns (o: State, u: State)
    requires cfg.Valid()
    ensures Reachable(cfg, f, o) && !o.started && o.closed && o.drain && !o.aborted
    ensures FailsOne(cfg, f, o, u)
  {
    AcceptedIs(cfg, f);
    var s := Accepted(cfg, f);
    ReachableStep(cfg, f, s, Close(true));
    o := Apply(cfg, f, s, Close(true));
    u := ReturnedOne(cfg, f, o);
  }

  /** A shutdown that returns True and fails the first item. */
  predicate FailsOne(cfg: Config, f: Text -> Vec, o: State, u: State) {
    && Shutdown(cfg, f, o, AtOnce(o), [], o, FailLoop(Total(o), |o.leftover|), u)
    && Returns(AtOnce(o), u) && FailedByIt(o, u, 0)
  }

  lemma {:induction false} ReturnedOne(cfg: Config, f: Text -> Vec, o: State) returns (u: State)
    requires cfg.Valid() && Reachable(cfg, f, o) && o.closed && (!o.started || AllExited(o))
    requires o.live == [0] && o.futures == [Pending]
    ensures FailsOne(cfg, f, o, u)
  {
    u := ShutdownAlone(cfg, f, o);
  }

  /** A started scheduler told not to drain lets its workers exit over a queued item. */
  lemma {:induction false} Abort(cfg: Config, f: Text -> Vec) returns (o: State)
    requires cfg.Valid()
    ensures Reachable(cfg, f, o) && o.started && o.closed && !o.drain && o.aborted && AllExited(o)
    ensures o.live == [0] && o.futures == [Pending]
  {
    AcceptedIs(cfg, f);
    var s := Accepted(cfg, f);
    ReachableStep(cfg, f, s, Start);
    var s1 := Apply(cfg, f, s, Start);
    ReachableStep(cfg, f, s1, Close(false));
    o := ExitAll(cfg, f, Apply(cfg, f, s1, Close(false)), 0);
  }

  /** `shutdown(drain=False)` of a started scheduler returns True and fails the queued item. */
  lemma {:induction false} AbortingShutdown(cfg: Config, f: Text -> Vec) returns (o: State, u: State)
    requires cfg.Valid()
    ensures Reachable(cfg, f, o) && o.started && o.closed && !o.drain
    ensures FailsOne(cfg, f, o, u)
  {
    o := Abort(cfg, f);
    u := ReturnedOne(cfg, f, o);
  }

  /** So does `shutdown(drain=True)` of a started scheduler after another shutdown asked not to drain:
      it is not this call's own argument that counts. */
  lemma {:induction false} DrainingAfterAbort(cfg: Config, f: Text -> Vec) returns (o: State, u: State)
    requires cfg.Valid()
    ensures Reachable(cfg, f, o) && o.started && o.closed && o.drain
    ensures FailsOne(cfg, f, o, u)
  {
    var s := Abort(cfg, f);
    ReachableStep(cfg, f, s, Close(true));
    o := Apply(cfg, f, s, Close(true));
    u := ReturnedOne(cfg, f, o);
  }

  /** A second `shutdown(drain=True)` returns True although the first, whose deadline had passed, failed
      an accepted item that was never inferred; no shutdown ever asked not to drain. */
  lemma {:induction false} SecondShutdown(cfg: Config, f: Text -> Vec) returns (o: State, u: State)
    requires cfg.Valid()
    ensures Reachable(cfg, f, o) && o.started && o.closed && o.drain && !o.aborted
    ensures Shutdown(cfg, f, o, AtOnce(o), [], o, FailLoop(Total(o), |o.leftover|), u) && Returns(AtOnce(o), u)
    ensures u.futures == [Finished(Closed)] && !Inferred(u, 0)
  {
    var s := FirstFails(cfg, f);
    ReachableStep(cfg, f, s, Close(true));
    o := ExitAll(cfg, f, Apply(cfg, f, s, Close(true)), 0);
    u := ShutdownAlone(cfg, f, o);
  }

  /** The first shutdown gives up on its joins and fails the only item. */
  lemma {:induction false} FirstFails(cfg: Config, f: Text -> Vec) returns (s: State)
    requires cfg.Valid()
    ensures Reachable(cfg, f, s) && s.started && s.closed && s.drain && !s.aborted
    ensures s.live == [] && s.background == [] && s.leftover == [] && s.futures == [Finished(Closed)]
    ensures forall w :: 0 <= w < |s.workers| ==> s.workers[w] == Awake
  {
    AcceptedIs(cfg, f);
    var s0 := Accepted(cfg, f);
    ReachableStep(cfg, f, s0, Start);
    var s1 := Apply(cfg, f, s0, Start);
    ReachableStep(cfg, f, s1, Close(true));
    var s2 := Apply(cfg, f, s1, Close(true));
    ReachableStep(cfg, f, s2, FailRemaining);
    var s3 := Apply(cfg, f, s2, FailRemaining);
    assert s3.leftover == [0];
    ReachableStep(cfg, f, s3, FailOne(0));
    s := Apply(cfg, f, s3, FailOne(0));
    assert s.futures == [Finished(Closed)];
  }
}
