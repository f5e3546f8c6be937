/** Worker accounting, admission bounds and wake-ups. */
module SchedulerWorkers {
  import opened SchedulerModel
  import opened SchedulerCompose
  import opened SchedulerPlacement

  // ------------------------------------------------------------------
  // Accounting
  // ------------------------------------------------------------------

  predicate IsBusy(w: Worker) { w.Encoding? || w.Settling? }

  predicate HoldsBackground(items: seq<Item>, w: Worker) {
    IsBusy(w) && CarriesBackground(items, w.batch)
  }

  function CountBusy(ws: seq<Worker>): (n: nat)
    ensures n <= |ws|
  {
    if ws == [] then 0 else (if IsBusy(ws[0]) then 1 else 0) + CountBusy(ws[1..])
  }

  function CountBackground(items: seq<Item>, ws: seq<Worker>): (n: nat)
    ensures n <= CountBusy(ws)
  {
    if ws == [] then 0 else (if HoldsBackground(items, ws[0]) then 1 else 0) + CountBackground(items, ws[1..])
  }

  lemma {:induction false} CountsUpdate(items: seq<Item>, ws: seq<Worker>, i: nat, w: Worker)
    requires i < |ws|
    ensures CountBusy(ws[i := w]) ==
            CountBusy(ws) - (if IsBusy(ws[i]) then 1 else 0) + (if IsBusy(w) then 1 else 0)
    ensures CountBackground(items, ws[i := w]) ==
            CountBackground(items, ws) - (if HoldsBackground(items, ws[i]) then 1 else 0)
            + (if HoldsBackground(items, w) then 1 else 0)
    decreases i
  {
    if i == 0 {
      assert ws[i := w][1..] == ws[1..];
    } else {
      assert ws[i := w][1..] == ws[1..][i - 1 := w];
      CountsUpdate(items, ws[1..], i - 1, w);
    }
  }

  lemma {:induction false} CountsSame(items: seq<Item>, items': seq<Item>, ws: seq<Worker>, ws': seq<Worker>)
    requires |ws| == |ws'|
    requires forall i :: 0 <= i < |ws| ==>
               IsBusy(ws[i]) == IsBusy(ws'[i]) && HoldsBackground(items, ws[i]) == HoldsBackground(items', ws'[i])
    ensures CountBusy(ws) == CountBusy(ws') && CountBackground(items, ws) == CountBackground(items', ws')
    decreases |ws|
  {
    if ws != [] {
      CountsSame(items, items', ws[1..], ws'[1..]);
    }
  }

  /** `_busy_workers` and `_background_inflight` are exact, and the background bound holds. */
  predicate Accounted(cfg: Config, s: State) {
    && s.busy == CountBusy(s.workers)
    && s.backgroundInflight == CountBackground(s.items, s.workers)
    && s.backgroundInflight <= cfg.maxBackground
  }

  lemma {:induction false} CountsNone(items: seq<Item>, ws: seq<Worker>)
    requires forall i :: 0 <= i < |ws| ==> !IsBusy(ws[i])
    ensures CountBusy(ws) == 0 && CountBackground(items, ws) == 0
  {
    if ws != [] {
      CountsNone(items, ws[1..]);
    }
  }

  /** A composition made without a free background slot carries no background item. */
  lemma {:induction false} LiveOnlyBatch(cfg: Config, s: State)
    requires QueuesOk(s) && s.backgroundInflight >= cfg.maxBackground
    ensures !CarriesBackground(s.items,
               ComposeOf(cfg, s.futures, s.live, s.background, s.backgroundInflight).Batch())
  {
    var c := ComposeOf(cfg, s.futures, s.live, s.background, s.backgroundInflight);
    ComposePrefixes(cfg, s.futures, s.live, s.background, s.backgroundInflight);
    PendingOfClass(s.futures, s.items, s.live[..c.liveCut], Live);
    assert c.middle == [];
    assert c.Batch() == c.first + c.last;
  }

  lemma {:induction false} AccountedTake(cfg: Config, s: State, w: nat, a: nat, b: nat, batch: seq<nat>)
    requires Accounted(cfg, s) && w < |s.workers| && s.workers[w].Window?
    requires a <= |s.live| && b <= |s.background|
    requires CarriesBackground(s.items, batch) ==> s.backgroundInflight < cfg.maxBackground
    ensures Accounted(cfg, ApplyTake(s, w, a, b, batch))
  {
    var ws := NotifyAll(s.workers);
    CountsSame(s.items, s.items, s.workers, ws);
    CountsUpdate(s.items, ws, w, if batch == [] then Awake else Encoding(batch));
  }

  lemma {:induction false} AccountedAdmit(cfg: Config, s: State, texts: seq<Text>, cls: Class)
    requires Accounted(cfg, s) && WorkersOk(s.futures, s.workers) && |s.items| == |s.futures|
    ensures Accounted(cfg, ApplyAdmit(s, texts, cls))
  {
    var s' := ApplyAdmit(s, texts, cls);
    forall i | 0 <= i < |s.workers|
      ensures IsBusy(s.workers[i]) == IsBusy(s'.workers[i])
      ensures HoldsBackground(s.items, s.workers[i]) == HoldsBackground(s'.items, s'.workers[i])
    {
      assert WorkerOk(s.futures, s.workers[i]);
    }
    CountsSame(s.items, s'.items, s.workers, s'.workers);
  }

  lemma {:induction false} AccountedRelease(cfg: Config, s: State, w: nat)
    requires Accounted(cfg, s) && w < |s.workers| && s.workers[w].Settling?
    ensures Accounted(cfg, ApplyRelease(s, w))
  {
    var ws := NotifyAll(s.workers);
    CountsSame(s.items, s.items, s.workers, ws);
    CountsUpdate(s.items, ws, w, Awake);
  }

  /** A step of one worker that keeps its batch, if it has one. */
  lemma {:induction false} AccountedWorker(cfg: Config, f: Text -> Vec, s: State, l: Label)
    requires Accounted(cfg, s) && Enabled(cfg, s, l)
    requires l.Park? || l.OpenWindow? || l.Encode? || l.Settle? || l.Exit?
    ensures Accounted(cfg, Apply(cfg, f, s, l))
  {
    CountsUpdate(s.items, s.workers, l.w, Apply(cfg, f, s, l).workers[l.w]);
  }

  lemma {:induction false} AccountedStart(cfg: Config, f: Text -> Vec, s: State)
    requires Accounted(cfg, s) && Enabled(cfg, s, Start)
    requires forall i :: 0 <= i < |s.workers| ==> s.workers[i].NotStarted?
    ensures Accounted(cfg, Apply(cfg, f, s, Start))
  {
    CountsSame(s.items, s.items, s.workers, Apply(cfg, f, s, Start).workers);
  }

  /** Steps that change no worker, or only wake the parked ones. */
  lemma {:induction false} AccountedOther(cfg: Config, f: Text -> Vec, s: State, l: Label)
    requires Accounted(cfg, s) && Enabled(cfg, s, l)
    requires l.Cancel? || l.Close? || l.FailRemaining? || l.FailOne? || l.Collect? || l.Raise?
    ensures Accounted(cfg, Apply(cfg, f, s, l))
  {
    CountsSame(s.items, s.items, s.workers, NotifyAll(s.workers));
  }

  /** Every step keeps both counters exact, even though the lock is dropped during the window. */
  lemma {:induction false} AccountedStep(cfg: Config, f: Text -> Vec, s: State, l: Label)
    requires Accounted(cfg, s) && QueuesOk(s) && WorkersOk(s.futures, s.workers) && Enabled(cfg, s, l)
    requires l.Start? ==> forall i :: 0 <= i < |s.workers| ==> s.workers[i].NotStarted?
    ensures Accounted(cfg, Apply(cfg, f, s, l))
  {
    match l
    case Compose(w) =>
      var c := ComposeOf(cfg, s.futures, s.live, s.background, s.backgroundInflight);
      if s.backgroundInflight >= cfg.maxBackground {
        LiveOnlyBatch(cfg, s);
      }
      AccountedTake(cfg, s, w, c.liveCut, c.backgroundCut, c.Batch());
    case Release(w) => AccountedRelease(cfg, s, w);
    case Admit(texts, cls) => AccountedAdmit(cfg, s, texts, cls);
    case Start => AccountedStart(cfg, f, s);
    case _ =>
      if l.Park? || l.OpenWindow? || l.Encode? || l.Settle? || l.Exit? {
        AccountedWorker(cfg, f, s, l);
      } else {
        AccountedOther(cfg, f, s, l);
      }
  }

  // ------------------------------------------------------------------
  // Admission bounds
  // ------------------------------------------------------------------

  predicate WithinLimits(cfg: Config, s: State) {
    && Total(s) <= cfg.maxPending
    && |s.background| <= cfg.PendingLimit(Background)
  }

  /** Pending work never exceeds its bounds. */
  lemma {:induction false} WithinLimitsStep(cfg: Config, f: Text -> Vec, s: State, l: Label)
    requires cfg.Valid() && WithinLimits(cfg, s) && Enabled(cfg, s, l)
    ensures WithinLimits(cfg, Apply(cfg, f, s, l))
  {
    if l.Compose? {
      var c := ComposeOf(cfg, s.futures, s.live, s.background, s.backgroundInflight);
      assert Apply(cfg, f, s, l).live == s.live[c.liveCut..];
      assert Apply(cfg, f, s, l).background == s.background[c.backgroundCut..];
    }
  }

  // ------------------------------------------------------------------
  // Wake-ups
  // ------------------------------------------------------------------

  predicate WorkerAwareOf(cfg: Config, s: State, w: Worker) {
    && (w.NotStarted? <==> !s.started)
    && (w.Parked? ==> !ShouldExit(s) && !CanCollect(cfg, s))
    && (w.Exited? ==> s.closed && (s.aborted || Total(s) == 0))
  }

  /** No parked worker has anything to do, and no worker left work behind unless told to. */
  predicate Wakeful(cfg: Config, s: State) {
    && |s.workers| == cfg.workers
    && (!s.drain ==> s.aborted)
    && (s.aborted ==> s.closed)
    && forall w :: 0 <= w < |s.workers| ==> WorkerAwareOf(cfg, s, s.workers[w])
  }

  predicate Notifies(l: Label) {
    l.Admit? || l.Compose? || l.Release? || l.Close? || l.FailRemaining?
  }

  /** Nothing a parked worker waits for, and no new reason to have exited. */
  predicate SameReasons(s: State, s': State) {
    && s'.live == s.live && s'.background == s.background && s'.backgroundInflight == s.backgroundInflight
    && s'.closed == s.closed && s'.drain == s.drain && s'.aborted == s.aborted
  }

  lemma {:induction false} AwareQuiet(cfg: Config, f: Text -> Vec, s: State, l: Label, w: nat)
    requires Wakeful(cfg, s) && Enabled(cfg, s, l) && !Notifies(l) && w < |s.workers|
    ensures |Apply(cfg, f, s, l).workers| == |s.workers| && SameReasons(s, Apply(cfg, f, s, l))
    ensures WorkerAwareOf(cfg, Apply(cfg, f, s, l), Apply(cfg, f, s, l).workers[w])
  {
    assert WorkerAwareOf(cfg, s, s.workers[w]);
  }

  lemma {:induction false} AwareNotified(cfg: Config, f: Text -> Vec, s: State, l: Label, w: nat)
    requires Wakeful(cfg, s) && Enabled(cfg, s, l) && Notifies(l) && w < |s.workers|
    ensures |Apply(cfg, f, s, l).workers| == |s.workers|
    ensures WorkerAwareOf(cfg, Apply(cfg, f, s, l), Apply(cfg, f, s, l).workers[w])
  {
    assert WorkerAwareOf(cfg, s, s.workers[w]);
    assert !Apply(cfg, f, s, l).workers[w].Parked?;
  }

  lemma {:induction false} AbortedStep(cfg: Config, f: Text -> Vec, s: State, l: Label)
    requires Enabled(cfg, s, l) && (!s.drain ==> s.aborted) && (s.aborted ==> s.closed)
    ensures var s' := Apply(cfg, f, s, l);
            && |s'.workers| == |s.workers| && (!s'.drain ==> s'.aborted) && (s'.aborted ==> s'.closed)
  {
  }

  /** No wake-up is lost: every step that gives a parked worker something to do notifies it. */
  lemma {:induction false} WakefulStep(cfg: Config, f: Text -> Vec, s: State, l: Label)
    requires Wakeful(cfg, s) && Enabled(cfg, s, l)
    ensures Wakeful(cfg, Apply(cfg, f, s, l))
  {
    AbortedStep(cfg, f, s, l);
    forall w | 0 <= w < |s.workers| ensures WorkerAwareOf(cfg, Apply(cfg, f, s, l), Apply(cfg, f, s, l).workers[w]) {
      if Notifies(l) {
        AwareNotified(cfg, f, s, l, w);
      } else {
        AwareQuiet(cfg, f, s, l, w);
      }
    }
  }
}
