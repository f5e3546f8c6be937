/** First in, first out per class: the items taken over all compositions are the admission
    order without those that were cancelled or failed by a shutdown. */
module SchedulerOrder {
  import opened SchedulerModel
  import opened SchedulerCompose
  import opened SchedulerPlacement

  /** The items of one class in admission order. */
  function Admitted(items: seq<Item>, cls: Class): seq<nat> {
    OfClass(items, NewIds(0, |items|), cls)
  }

  function Queue(s: State, cls: Class): seq<nat> {
    if cls.Live? then s.live else s.background
  }

  function Flatten(batches: seq<seq<nat>>): seq<nat> {
    if batches == [] then [] else Flatten(batches[..|batches| - 1]) + batches[|batches| - 1]
  }

  /** The item entered a forward pass. */
  predicate Ran(f: Future) {
    f.Running? || (f.Finished? && !f.outcome.Closed?)
  }

  function RanIn(fs: seq<Future>, ids: seq<nat>): seq<nat>
    requires Known(fs, ids)
  {
    if ids == [] then []
    else (if Ran(fs[ids[0]]) then [ids[0]] else []) + RanIn(fs, ids[1..])
  }

  /** The admission order splits into what left the queue, `gone`, and the queue itself;
      the items of `gone` that ran are exactly the ones taken, in the same order. */
  predicate OrderedWith(s: State, cls: Class, gone: seq<nat>) {
    && Admitted(s.items, cls) == gone + Queue(s, cls)
    && Known(s.futures, gone)
    && KnownItems(s.items, Flatten(s.history))
    && OfClass(s.items, Flatten(s.history), cls) == RanIn(s.futures, gone)
  }

  function Gone(s: State, cls: Class): seq<nat> {
    var adm := Admitted(s.items, cls);
    var q := Queue(s, cls);
    if |q| <= |adm| then adm[..|adm| - |q|] else []
  }

  predicate Ordered(s: State) {
    OrderedWith(s, Live, Gone(s, Live)) && OrderedWith(s, Background, Gone(s, Background))
  }

  lemma {:induction false} OrderedGone(s: State, cls: Class, gone: seq<nat>)
    requires OrderedWith(s, cls, gone)
    ensures gone == Gone(s, cls)
  {
    assert (gone + Queue(s, cls))[..|gone|] == gone;
  }

  // ------------------------------------------------------------------
  // Helpers
  // ------------------------------------------------------------------

  lemma {:induction false} RanCons(fs: seq<Future>, id: nat, ids: seq<nat>)
    requires id < |fs| && Known(fs, ids)
    ensures Known(fs, [id] + ids)
    ensures RanIn(fs, [id] + ids) == (if Ran(fs[id]) then [id] else []) + RanIn(fs, ids)
  {
    assert ([id] + ids)[1..] == ids;
  }

  lemma {:induction false} RanConcat(fs: seq<Future>, a: seq<nat>, b: seq<nat>)
    requires Known(fs, a) && Known(fs, b)
    ensures Known(fs, a + b) && RanIn(fs, a + b) == RanIn(fs, a) + RanIn(fs, b)
  {
    if a == [] {
      assert a + b == b;
    } else {
      var rest := a[1..] + b;
      RanConcat(fs, a[1..], b);
      assert a + b == [a[0]] + rest && a == [a[0]] + a[1..];
      RanCons(fs, a[0], rest);
      RanCons(fs, a[0], a[1..]);
    }
  }

  lemma {:induction false} RanSame(fs: seq<Future>, fs': seq<Future>, ids: seq<nat>)
    requires Known(fs, ids) && Known(fs', ids)
    requires forall i :: 0 <= i < |ids| ==> Ran(fs[ids[i]]) == Ran(fs'[ids[i]])
    ensures RanIn(fs, ids) == RanIn(fs', ids)
  {
    if ids != [] {
      RanSame(fs, fs', ids[1..]);
    }
  }

  lemma {:induction false} NoneRan(fs: seq<Future>, ids: seq<nat>)
    requires Waiting(fs, ids)
    ensures Known(fs, ids) && RanIn(fs, ids) == []
  {
    if ids != [] {
      NoneRan(fs, ids[1..]);
    }
  }

  /** Claiming popped entries makes exactly the uncancelled ones run. */
  lemma {:induction false} RanAfterClaim(fs: seq<Future>, popped: seq<nat>, ids: seq<nat>)
    requires Waiting(fs, ids)
    requires forall i :: 0 <= i < |ids| ==> ids[i] in popped
    ensures Known(fs, ids) && Known(Claim(fs, popped), ids)
    ensures RanIn(Claim(fs, popped), ids) == PendingIn(fs, ids)
  {
    if ids != [] {
      RanAfterClaim(fs, popped, ids[1..]);
    }
  }

  predicate Increasing(ids: seq<nat>) {
    forall i, j :: 0 <= i < j < |ids| ==> ids[i] < ids[j]
  }

  lemma {:induction false} OfClassMembers(items: seq<Item>, ids: seq<nat>, cls: Class)
    requires KnownItems(items, ids)
    ensures forall i :: 0 <= i < |OfClass(items, ids, cls)| ==> OfClass(items, ids, cls)[i] in ids
  {
    if ids != [] {
      OfClassMembers(items, ids[1..], cls);
    }
  }

  lemma {:induction false} OfClassIncreasing(items: seq<Item>, ids: seq<nat>, cls: Class)
    requires KnownItems(items, ids) && Increasing(ids)
    ensures Increasing(OfClass(items, ids, cls))
  {
    if ids != [] {
      OfClassIncreasing(items, ids[1..], cls);
      OfClassMembers(items, ids[1..], cls);
    }
  }

  lemma {:induction false} GoneNotQueued(s: State, cls: Class, gone: seq<nat>, i: nat)
    requires Admitted(s.items, cls) == gone + Queue(s, cls) && i < |gone|
    ensures gone[i] !in Queue(s, cls)
  {
    OfClassIncreasing(s.items, NewIds(0, |s.items|), cls);
    var all := Admitted(s.items, cls);
    assert all[i] == gone[i];
    assert forall j :: 0 <= j < |Queue(s, cls)| ==> all[|gone| + j] == Queue(s, cls)[j];
  }

  lemma {:induction false} OfClassAllOf(items: seq<Item>, ids: seq<nat>, cls: Class)
    requires KnownItems(items, ids)
    ensures AllOfClass(items, OfClass(items, ids, cls), cls)
  {
    if ids != [] {
      OfClassAllOf(items, ids[1..], cls);
    }
  }

  lemma {:induction false} GoneOfClass(s: State, cls: Class, gone: seq<nat>)
    requires Admitted(s.items, cls) == gone + Queue(s, cls)
    ensures AllOfClass(s.items, gone, cls)
  {
    OfClassAllOf(s.items, NewIds(0, |s.items|), cls);
    OfClassParts(s.items, gone, Queue(s, cls), cls);
  }

  // ------------------------------------------------------------------
  // Steps
  // ------------------------------------------------------------------

  lemma {:induction false} AdmittedExtend(items: seq<Item>, texts: seq<Text>, own: Class, cls: Class)
    ensures Admitted(items + NewItems(texts, own), cls) ==
            Admitted(items, cls) + if cls == own then NewIds(|items|, |texts|) else []
  {
    var more := NewItems(texts, own);
    var earlier := NewIds(0, |items|);
    var ids := NewIds(|items|, |texts|);
    assert NewIds(0, |items + more|) == earlier + ids;
    assert AllOfClass(items + more, ids, own);
    OfClassConcat(items + more, earlier, ids, cls);
    OfClassExtend(items, more, earlier, cls);
    OfClassAll(items + more, ids, own, cls);
  }

  lemma {:induction false} OrderedAdmit(s: State, texts: seq<Text>, own: Class, cls: Class, gone: seq<nat>)
    requires OrderedWith(s, cls, gone) && |s.items| == |s.futures|
    ensures OrderedWith(ApplyAdmit(s, texts, own), cls, gone)
  {
    var s' := ApplyAdmit(s, texts, own);
    var ids := if cls == own then NewIds(|s.items|, |texts|) else [];
    AdmittedExtend(s.items, texts, own, cls);
    QueueAdmit(s, texts, own, cls, gone, ids);
    RanSame(s.futures, s'.futures, gone);
    OfClassExtend(s.items, NewItems(texts, own), Flatten(s.history), cls);
  }

  lemma {:induction false} QueueAdmit(s: State, texts: seq<Text>, own: Class, cls: Class, gone: seq<nat>, ids: seq<nat>)
    requires ids == if cls == own then NewIds(|s.items|, |texts|) else []
    ensures gone + Queue(ApplyAdmit(s, texts, own), cls) == gone + Queue(s, cls) + ids
  {
    assert gone + (Queue(s, cls) + ids) == gone + Queue(s, cls) + ids;
    assert Queue(s, cls) + [] == Queue(s, cls);
  }

  /** Steps that leave queues and history alone and keep which items ran. */
  lemma {:induction false} OrderedKeep(s: State, s': State, cls: Class, gone: seq<nat>)
    requires OrderedWith(s, cls, gone)
    requires s'.items == s.items && s'.history == s.history && Queue(s', cls) == Queue(s, cls)
    requires |s'.futures| == |s.futures|
    requires forall id :: 0 <= id < |s.futures| ==> Ran(s'.futures[id]) == Ran(s.futures[id])
    ensures OrderedWith(s', cls, gone)
  {
    RanSame(s.futures, s'.futures, gone);
  }

  lemma {:induction false} OrderedFailRemaining(s: State, s': State, cls: Class, gone: seq<nat>)
    requires OrderedWith(s, cls, gone) && Waiting(s.futures, Queue(s, cls))
    requires s'.items == s.items && s'.history == s.history && s'.futures == s.futures
    requires Queue(s', cls) == []
    ensures OrderedWith(s', cls, gone + Queue(s, cls))
  {
    NoneRan(s.futures, Queue(s, cls));
    RanConcat(s.futures, gone, Queue(s, cls));
    assert gone + Queue(s, cls) + [] == gone + Queue(s, cls);
  }

  function Cutoff(cls: Class, a: nat, b: nat): nat { if cls.Live? then a else b }

  /** Items that left a queue earlier are not among the popped ones. */
  lemma {:induction false} GoneNotPopped(s: State, a: nat, b: nat, cls: Class, gone: seq<nat>, i: nat)
    requires QueuesOk(s) && a <= |s.live| && b <= |s.background|
    requires Admitted(s.items, cls) == gone + Queue(s, cls) && i < |gone|
    ensures gone[i] !in Popped(s, a, b)
  {
    GoneNotQueued(s, cls, gone, i);
    GoneOfClass(s, cls, gone);
  }

  lemma {:induction false} FlattenSnoc(batches: seq<seq<nat>>, batch: seq<nat>)
    ensures Flatten(batches + [batch]) == Flatten(batches) + batch
  {
    assert (batches + [batch])[..|batches|] == batches;
  }

  lemma {:induction false} TakenFutures(s: State, a: nat, b: nat, cls: Class, gone: seq<nat>)
    requires QueuesOk(s) && a <= |s.live| && b <= |s.background|
    requires Admitted(s.items, cls) == gone + Queue(s, cls) && Known(s.futures, gone)
    ensures var k := Cutoff(cls, a, b);
            var fs' := Claim(s.futures, Popped(s, a, b));
            && Known(fs', gone + Queue(s, cls)[..k])
            && Known(s.futures, Queue(s, cls)[..k])
            && RanIn(fs', gone + Queue(s, cls)[..k]) ==
               RanIn(s.futures, gone) + PendingIn(s.futures, Queue(s, cls)[..k])
  {
    var k := Cutoff(cls, a, b);
    var popped := Popped(s, a, b);
    var fs' := Claim(s.futures, popped);
    var mine := Queue(s, cls)[..k];
    forall i | 0 <= i < |gone| ensures fs'[gone[i]] == s.futures[gone[i]] {
      GoneNotPopped(s, a, b, cls, gone, i);
    }
    RanSame(s.futures, fs', gone);
    forall i | 0 <= i < |mine| ensures mine[i] in popped {
      assert popped[if cls.Live? then i else a + i] == mine[i];
    }
    RanAfterClaim(s.futures, popped, mine);
    RanConcat(fs', gone, mine);
  }

  lemma {:induction false} OrderedTake(s: State, w: nat, a: nat, b: nat, batch: seq<nat>, cls: Class, gone: seq<nat>)
    requires QueuesOk(s) && w < |s.workers| && a <= |s.live| && b <= |s.background|
    requires OrderedWith(s, cls, gone)
    requires KnownItems(s.items, batch)
    requires OfClass(s.items, batch, cls) == PendingIn(s.futures, Queue(s, cls)[..Cutoff(cls, a, b)])
    ensures OrderedWith(ApplyTake(s, w, a, b, batch), cls, gone + Queue(s, cls)[..Cutoff(cls, a, b)])
  {
    var k := Cutoff(cls, a, b);
    var q := Queue(s, cls);
    TakenFutures(s, a, b, cls, gone);
    assert gone + q == gone + q[..k] + q[k..];
    HistoryGrows(s, batch, cls);
  }

  lemma {:induction false} HistoryGrows(s: State, batch: seq<nat>, cls: Class)
    requires KnownItems(s.items, Flatten(s.history)) && KnownItems(s.items, batch)
    ensures var h := if batch == [] then s.history else s.history + [batch];
            && KnownItems(s.items, Flatten(h))
            && OfClass(s.items, Flatten(h), cls) == OfClass(s.items, Flatten(s.history), cls) + OfClass(s.items, batch, cls)
  {
    if batch == [] {
      assert OfClass(s.items, Flatten(s.history), cls) + [] == OfClass(s.items, Flatten(s.history), cls);
    } else {
      FlattenSnoc(s.history, batch);
      OfClassConcat(s.items, Flatten(s.history), batch, cls);
    }
  }

  lemma {:induction false} OrderedCompose(cfg: Config, s: State, w: nat)
    requires QueuesOk(s) && Ordered(s) && Enabled(cfg, s, Compose(w))
    ensures Ordered(ApplyCompose(cfg, s, w))
  {
    var c := ComposeOf(cfg, s.futures, s.live, s.background, s.backgroundInflight);
    BatchOrder(cfg, s.items, s.futures, s.live, s.background, s.backgroundInflight);
    var a, b := c.liveCut, c.backgroundCut;
    OrderedTake(s, w, a, b, c.Batch(), Live, Gone(s, Live));
    OrderedTake(s, w, a, b, c.Batch(), Background, Gone(s, Background));
    OrderedGone(ApplyCompose(cfg, s, w), Live, Gone(s, Live) + s.live[..a]);
    OrderedGone(ApplyCompose(cfg, s, w), Background, Gone(s, Background) + s.background[..b]);
  }

  lemma {:induction false} OrderedInit(cfg: Config)
    ensures Ordered(Init(cfg))
  {
    assert NewIds(0, 0) == [];
  }

  /** No forward pass reports the outcome reserved for a shutdown. */
  predicate OutsOk(w: Worker) {
    w.Settling? ==> forall i :: 0 <= i < |w.outs| ==> !w.outs[i].Closed?
  }

  /** Steps other than composition: either nothing relevant changes, or only futures do. */
  lemma {:induction false} RanKept(cfg: Config, f: Text -> Vec, s: State, l: Label, id: nat)
    requires QueuesOk(s) && WorkersOk(s.futures, s.workers) && Enabled(cfg, s, l)
    requires forall w :: 0 <= w < |s.workers| ==> OutsOk(s.workers[w])
    requires !l.Compose? && !l.Admit? && id < |s.futures|
    ensures |Apply(cfg, f, s, l).futures| == |s.futures|
    ensures Ran(Apply(cfg, f, s, l).futures[id]) == Ran(s.futures[id])
  {
    if l.Settle? {
      var w := s.workers[l.w];
      assert WorkerOk(s.futures, w) && OutsOk(w);
      assert Unsettled(w)[0] == w.batch[w.done];
    }
  }

  lemma {:induction false} OrderedOther(cfg: Config, f: Text -> Vec, s: State, l: Label, cls: Class)
    requires QueuesOk(s) && WorkersOk(s.futures, s.workers) && Enabled(cfg, s, l)
    requires OrderedWith(s, cls, Gone(s, cls))
    requires forall w :: 0 <= w < |s.workers| ==> OutsOk(s.workers[w])
    requires !l.Compose? && !l.Admit? && !l.FailRemaining?
    ensures OrderedWith(Apply(cfg, f, s, l), cls, Gone(s, cls))
    ensures Gone(Apply(cfg, f, s, l), cls) == Gone(s, cls)
  {
    var s' := Apply(cfg, f, s, l);
    forall id | 0 <= id < |s.futures|
      ensures |s'.futures| == |s.futures| && Ran(s'.futures[id]) == Ran(s.futures[id])
    {
      RanKept(cfg, f, s, l, id);
    }
    OrderedKeep(s, s', cls, Gone(s, cls));
    OrderedGone(s', cls, Gone(s, cls));
  }

  lemma {:induction false} OrderedAdmitted(cfg: Config, f: Text -> Vec, s: State, l: Label)
    requires Ordered(s) && |s.items| == |s.futures| && Enabled(cfg, s, l) && l.Admit?
    ensures Ordered(Apply(cfg, f, s, l))
  {
    var s' := ApplyAdmit(s, l.texts, l.cls);
    OrderedAdmit(s, l.texts, l.cls, Live, Gone(s, Live));
    OrderedAdmit(s, l.texts, l.cls, Background, Gone(s, Background));
    OrderedGone(s', Live, Gone(s, Live));
    OrderedGone(s', Background, Gone(s, Background));
  }

  lemma {:induction false} OrderedSwept(cfg: Config, f: Text -> Vec, s: State)
    requires Ordered(s) && QueuesOk(s) && Enabled(cfg, s, FailRemaining)
    ensures Ordered(Apply(cfg, f, s, FailRemaining))
  {
    var s' := Apply(cfg, f, s, FailRemaining);
    OrderedFailRemaining(s, s', Live, Gone(s, Live));
    OrderedFailRemaining(s, s', Background, Gone(s, Background));
    OrderedGone(s', Live, Gone(s, Live) + s.live);
    OrderedGone(s', Background, Gone(s, Background) + s.background);
  }

  lemma {:induction false} OrderedComposed(cfg: Config, f: Text -> Vec, s: State, w: nat)
    requires Ordered(s) && QueuesOk(s) && Enabled(cfg, s, Compose(w))
    ensures Ordered(Apply(cfg, f, s, Compose(w)))
  {
    OrderedCompose(cfg, s, w);
  }

  /** Every step keeps both classes in admission order. */
  lemma {:induction false} OrderedStep(cfg: Config, f: Text -> Vec, s: State, l: Label)
    requires QueuesOk(s) && WorkersOk(s.futures, s.workers) && Ordered(s) && Enabled(cfg, s, l)
    requires forall w :: 0 <= w < |s.workers| ==> OutsOk(s.workers[w])
    ensures Ordered(Apply(cfg, f, s, l))
  {
    if l.Compose? {
      OrderedComposed(cfg, f, s, l.w);
    } else if l.Admit? {
      OrderedAdmitted(cfg, f, s, l);
    } else if l.FailRemaining? {
      OrderedSwept(cfg, f, s);
    } else {
      OrderedOther(cfg, f, s, l, Live);
      OrderedOther(cfg, f, s, l, Background);
    }
  }
}
