/** Progress, draining and shutdown. */
module SchedulerShutdown {
  import opened SchedulerModel
  import opened SchedulerCompose
  import opened SchedulerPlacement
  import opened SchedulerOrder
  import opened SchedulerWorkers
  import opened SchedulerResults

  // ------------------------------------------------------------------
  // No stuck state
  // ------------------------------------------------------------------

  /** Worker `w` is inside a forward pass, or there is something to collect and it can collect it
      without waiting for anybody. */
  predicate AtWork(cfg: Config, s: State, w: nat) {
    && w < |s.workers|
    && (IsBusy(s.workers[w]) || (CanCollect(cfg, s) && (s.workers[w].Window? || Enabled(cfg, s, OpenWindow(w)))))
  }

  lemma {:induction false} BusyExists(items: seq<Item>, ws: seq<Worker>) returns (w: nat)
    requires CountBackground(items, ws) > 0
    ensures w < |ws| && IsBusy(ws[w])
  {
    if IsBusy(ws[0]) {
      w := 0;
    } else {
      var v := BusyExists(items, ws[1..]);
      w := v + 1;
    }
  }

  predicate AllExited(s: State) {
    forall w :: 0 <= w < |s.workers| ==> s.workers[w].Exited?
  }

  lemma {:induction false} FindAtWork(cfg: Config, s: State, v: nat) returns (w: nat)
    requires cfg.Valid() && Accounted(cfg, s) && Wakeful(cfg, s)
    requires s.started && (!s.closed || s.drain) && Total(s) > 0
    requires v < |s.workers| && !s.workers[v].Exited?
    ensures AtWork(cfg, s, w)
  {
    if CanCollect(cfg, s) {
      w := v;
      assert WorkerAwareOf(cfg, s, s.workers[v]);
    } else {
      w := BusyExists(s.items, s.workers);
    }
  }

  /** No wake-up is lost: in every reachable state with pending items, a started scheduler that is open
      or told to drain has a worker that runs a batch or is enabled to take one, if and only if some
      worker has not exited; and workers exit over pending items only when a shutdown asked not to
      drain. */
  lemma {:induction false} NeverStuck(cfg: Config, f: Text -> Vec, s: State)
    requires cfg.Valid() && Reachable(cfg, f, s) && s.started && (!s.closed || s.drain) && Total(s) > 0
    ensures (exists w :: AtWork(cfg, s, w)) <==> !AllExited(s)
    ensures AllExited(s) ==> s.aborted
  {
    InvReachable(cfg, f, s);
    assert WorkerAwareOf(cfg, s, s.workers[0]);
    if !AllExited(s) {
      var v :| 0 <= v < |s.workers| && !s.workers[v].Exited?;
      var w := FindAtWork(cfg, s, v);
    }
  }

  // ------------------------------------------------------------------
  // Draining terminates
  // ------------------------------------------------------------------

  predicate WorkerStep(l: Label) {
    l.Park? || l.OpenWindow? || l.Compose? || l.Encode? || l.Settle? || l.Release? || l.Exit?
  }

  /** What is left to do for one batch. */
  function BatchWork(w: Worker): nat {
    match w
    case Encoding(batch) => |batch| + 2
    case Settling(batch, _, done) => if done <= |batch| then |batch| - done + 1 else 1
    case _ => 0
  }

  function TotalWork(ws: seq<Worker>): nat {
    if ws == [] then 0 else BatchWork(ws[0]) + TotalWork(ws[1..])
  }

  /** How far one worker is from having nothing left to decide. While something can be collected a
      window is closer to its composition; otherwise a window only returns to the queue test. */
  function Unrest(w: Worker, collect: bool, n: nat): nat {
    match w
    case Awake => 1
    case Window => if collect then 0 else n + 2
    case _ => 0
  }

  function TotalUnrest(ws: seq<Worker>, collect: bool, n: nat): nat {
    if ws == [] then 0 else Unrest(ws[0], collect, n) + TotalUnrest(ws[1..], collect, n)
  }

  /** The rank of a state, compared component by component. */
  datatype Rank = Rank(pending: nat, work: nat, unrest: nat) {
    predicate Below(r: Rank) {
      || pending < r.pending
      || (pending == r.pending && work < r.work)
      || (pending == r.pending && work == r.work && unrest < r.unrest)
    }
  }

  function RankOf(cfg: Config, s: State): Rank {
    Rank(Total(s), TotalWork(s.workers), TotalUnrest(s.workers, CanCollect(cfg, s), |s.workers|))
  }

  lemma {:induction false} WorkUpdate(ws: seq<Worker>, i: nat, w: Worker)
    requires i < |ws|
    ensures TotalWork(ws[i := w]) == TotalWork(ws) - BatchWork(ws[i]) + BatchWork(w)
    decreases i
  {
    if i == 0 {
      assert ws[i := w][1..] == ws[1..];
    } else {
      assert ws[i := w][1..] == ws[1..][i - 1 := w];
      WorkUpdate(ws[1..], i - 1, w);
    }
  }

  lemma {:induction false} WorkSame(ws: seq<Worker>, ws': seq<Worker>)
    requires |ws| == |ws'| && forall i :: 0 <= i < |ws| ==> BatchWork(ws[i]) == BatchWork(ws'[i])
    ensures TotalWork(ws) == TotalWork(ws')
    decreases |ws|
  {
    if ws != [] {
      WorkSame(ws[1..], ws'[1..]);
    }
  }

  lemma {:induction false} UnrestUpdate(ws: seq<Worker>, i: nat, w: Worker, collect: bool, n: nat)
    requires i < |ws|
    ensures TotalUnrest(ws[i := w], collect, n) ==
            TotalUnrest(ws, collect, n) - Unrest(ws[i], collect, n) + Unrest(w, collect, n)
    decreases i
  {
    if i == 0 {
      assert ws[i := w][1..] == ws[1..];
    } else {
      assert ws[i := w][1..] == ws[1..][i - 1 := w];
      UnrestUpdate(ws[1..], i - 1, w, collect, n);
    }
  }

  lemma {:induction false} UnrestNotify(ws: seq<Worker>, collect: bool, n: nat)
    ensures TotalUnrest(NotifyAll(ws), collect, n) <= TotalUnrest(ws, collect, n) + |ws|
  {
    if ws != [] {
      assert NotifyAll(ws)[1..] == NotifyAll(ws[1..]);
      UnrestNotify(ws[1..], collect, n);
    }
  }

  /** A composition made while something can be collected pops at least one entry. */
  lemma {:induction false} ComposePops(cfg: Config, s: State)
    requires cfg.Valid() && Known(s.futures, s.live) && Known(s.futures, s.background) && CanCollect(cfg, s)
    ensures var c := ComposeOf(cfg, s.futures, s.live, s.background, s.backgroundInflight);
            c.liveCut + c.backgroundCut > 0
  {
    var c := ComposeOf(cfg, s.futures, s.live, s.background, s.backgroundInflight);
    var allow := BackgroundAdmissible(cfg, s.background, s.backgroundInflight);
    FirstSize(cfg, s.futures, s.live, s.background, s.backgroundInflight);
    assert LiveCapacity(cfg, allow) == 0 || s.live == [] ==> c.first == [];
  }

  lemma {:induction false} RankCompose(cfg: Config, s: State, w: nat)
    requires cfg.Valid() && Enabled(cfg, s, Compose(w))
    ensures RankOf(cfg, ApplyCompose(cfg, s, w)).Below(RankOf(cfg, s))
  {
    var s' := ApplyCompose(cfg, s, w);
    if CanCollect(cfg, s) {
      ComposePops(cfg, s);
    } else {
      ComposeNothing(cfg, s);
      var ws := NotifyAll(s.workers);
      assert s'.workers == ws[w := Awake];
      assert s'.live == s.live && s'.background == s.background;
      WorkSame(s.workers, ws);
      WorkUpdate(ws, w, Awake);
      UnrestNotify(s.workers, false, |s.workers|);
      UnrestUpdate(ws, w, Awake, false, |s.workers|);
    }
  }

  lemma {:induction false} ComposeNothing(cfg: Config, s: State)
    requires Known(s.futures, s.live) && Known(s.futures, s.background) && !CanCollect(cfg, s)
    ensures var c := ComposeOf(cfg, s.futures, s.live, s.background, s.backgroundInflight);
            c.liveCut == 0 && c.backgroundCut == 0 && c.Batch() == []
  {
    ComposePrefixes(cfg, s.futures, s.live, s.background, s.backgroundInflight);
  }

  lemma {:induction false} RankBatch(cfg: Config, f: Text -> Vec, s: State, l: Label)
    requires Enabled(cfg, s, l) && (l.Encode? || l.Settle? || l.Release?)
    requires WorkersOk(s.futures, s.workers)
    ensures RankOf(cfg, Apply(cfg, f, s, l)).Below(RankOf(cfg, s))
  {
    var s' := Apply(cfg, f, s, l);
    assert WorkerOk(s.futures, s.workers[l.w]);
    if l.Release? {
      WorkSame(s.workers, NotifyAll(s.workers));
      WorkUpdate(NotifyAll(s.workers), l.w, Awake);
    } else {
      WorkUpdate(s.workers, l.w, s'.workers[l.w]);
    }
  }

  lemma {:induction false} RankMove(cfg: Config, f: Text -> Vec, s: State, l: Label)
    requires Enabled(cfg, s, l) && (l.Park? || l.OpenWindow? || l.Exit?)
    ensures RankOf(cfg, Apply(cfg, f, s, l)).Below(RankOf(cfg, s))
  {
    var s' := Apply(cfg, f, s, l);
    WorkUpdate(s.workers, l.w, s'.workers[l.w]);
    UnrestUpdate(s.workers, l.w, s'.workers[l.w], CanCollect(cfg, s), |s.workers|);
  }

  /** Every step of every worker lowers the rank, so once admission has stopped the workers can take
      only finitely many steps: no worker spins, and no drain runs forever. */
  lemma {:induction false} DrainTerminates(cfg: Config, f: Text -> Vec, s: State, l: Label)
    requires cfg.Valid() && Reachable(cfg, f, s) && Enabled(cfg, s, l) && WorkerStep(l)
    ensures RankOf(cfg, Apply(cfg, f, s, l)).Below(RankOf(cfg, s))
  {
    InvReachable(cfg, f, s);
    if l.Compose? {
      RankCompose(cfg, s, l.w);
    } else if l.Encode? || l.Settle? || l.Release? {
      RankBatch(cfg, f, s, l);
    } else {
      RankMove(cfg, f, s, l);
    }
  }

  /** After a close, a worker that has not exited always leaves some worker able to step, so the
      finitely many steps end with every worker gone. */
  lemma {:induction false} DrainProgress(cfg: Config, f: Text -> Vec, s: State, v: nat) returns (l: Label)
    requires cfg.Valid() && Reachable(cfg, f, s) && s.started && s.closed
    requires v < |s.workers| && !s.workers[v].Exited?
    ensures WorkerStep(l) && Enabled(cfg, s, l)
  {
    InvReachable(cfg, f, s);
    assert WorkerAwareOf(cfg, s, s.workers[v]);
    var w := v;
    if s.workers[v].Parked? {
      w := BusyExists(s.items, s.workers);
    }
    assert WorkerOk(s.futures, s.workers[w]);
    match s.workers[w]
    case Awake =>
      l := if ShouldExit(s) then Exit(w) else if CanCollect(cfg, s) then OpenWindow(w) else Park(w);
    case Window => l := Compose(w);
    case Encoding(_) => l := Encode(w, Vectors);
    case Settling(batch, outs, done) =>
      if done < |batch| {
        l := Settle(w);
      } else {
        l := Release(w);
      }
  }

  predicate WorkerSteps(labels: seq<Label>) {
    forall i :: 0 <= i < |labels| ==> WorkerStep(labels[i])
  }

  /** One step of a drain that is not over. */
  lemma {:induction false} DrainStep(cfg: Config, f: Text -> Vec, s: State) returns (l: Label, next: State)
    requires cfg.Valid() && Reachable(cfg, f, s) && s.started && s.closed && !AllExited(s)
    ensures WorkerStep(l) && Enabled(cfg, s, l) && next == Apply(cfg, f, s, l)
    ensures Reachable(cfg, f, next) && next.started && next.closed && RankOf(cfg, next).Below(RankOf(cfg, s))
  {
    var v :| 0 <= v < |s.workers| && !s.workers[v].Exited?;
    l := DrainProgress(cfg, f, s, v);
    next := Apply(cfg, f, s, l);
    DrainTerminates(cfg, f, s, l);
    ReachableStep(cfg, f, s, l);
    StaysClosed(cfg, f, s, l);
  }

  /** A drain ends: from any reachable state of a started and closed scheduler, the workers' own steps
      alone lead to every worker having exited. */
  lemma {:induction false} DrainEnds(cfg: Config, f: Text -> Vec, s: State) returns (labels: seq<Label>, t: State)
    requires cfg.Valid() && Reachable(cfg, f, s) && s.started && s.closed
    ensures Run(cfg, f, s, labels, t) && WorkerSteps(labels) && AllExited(t)
    decreases RankOf(cfg, s).pending, RankOf(cfg, s).work, RankOf(cfg, s).unrest
  {
    if AllExited(s) {
      labels, t := [], s;
    } else {
      var l, next := DrainStep(cfg, f, s);
      var rest, end := DrainEnds(cfg, f, next);
      RunCons(cfg, f, s, l, next, rest, end);
      labels, t := [l] + rest, end;
    }
  }

  lemma {:induction false} StaysClosed(cfg: Config, f: Text -> Vec, s: State, l: Label)
    requires Enabled(cfg, s, l)
    ensures s.started ==> Apply(cfg, f, s, l).started
    ensures s.closed ==> Apply(cfg, f, s, l).closed
    ensures s.aborted ==> Apply(cfg, f, s, l).aborted
  {
  }
}
