/** The whole-run invariant of the scheduler, and what it says about results and conservation. */
module SchedulerResults {
  import opened SchedulerModel
  import opened SchedulerCompose
  import opened SchedulerPlacement
  import opened SchedulerOrder
  import opened SchedulerWorkers

  // ------------------------------------------------------------------
  // Results
  // ------------------------------------------------------------------

  predicate OutcomeOk(f: Text -> Vec, item: Item, o: Outcome) {
    o.Vector? ==> o.v == f(item.text)
  }

  /** A worker pairs every item of its batch with that item's own outcome. */
  predicate PairedWith(f: Text -> Vec, items: seq<Item>, w: Worker) {
    && OutsOk(w)
    && (w.Settling? ==>
          && |w.outs| == |w.batch|
          && KnownItems(items, w.batch)
          && forall i :: 0 <= i < |w.outs| ==> OutcomeOk(f, items[w.batch[i]], w.outs[i]))
  }

  predicate CallOk(f: Text -> Vec, items: seq<Item>, call: Call) {
    && call.first + call.count <= |items|
    && |call.got| <= call.count
    && forall i :: 0 <= i < |call.got| ==> call.got[i] == f(items[call.first + i].text)
  }

  /** Every vector anywhere belongs to the text it is paired with. */
  predicate ResultsOk(f: Text -> Vec, s: State) {
    && |s.futures| == |s.items|
    && (forall w :: 0 <= w < |s.workers| ==> PairedWith(f, s.items, s.workers[w]))
    && (forall id :: 0 <= id < |s.futures| && s.futures[id].Finished? ==>
          OutcomeOk(f, s.items[id], s.futures[id].outcome))
    && (forall c :: 0 <= c < |s.calls| ==> CallOk(f, s.items, s.calls[c]))
  }

  lemma {:induction false} ResultsAdmit(cfg: Config, f: Text -> Vec, s: State, l: Label)
    requires ResultsOk(f, s) && Enabled(cfg, s, l) && l.Admit?
    ensures ResultsOk(f, Apply(cfg, f, s, l))
  {
    var s' := ApplyAdmit(s, l.texts, l.cls);
    forall w | 0 <= w < |s'.workers| ensures PairedWith(f, s'.items, s'.workers[w]) {
      assert PairedWith(f, s.items, s.workers[w]);
    }
    forall c | 0 <= c < |s'.calls| ensures CallOk(f, s'.items, s'.calls[c]) {
      if c < |s.calls| {
        assert CallOk(f, s.items, s.calls[c]);
      }
    }
  }

  lemma {:induction false} ResultsSettle(cfg: Config, f: Text -> Vec, s: State, l: Label)
    requires ResultsOk(f, s) && Enabled(cfg, s, l) && l.Settle?
    ensures ResultsOk(f, Apply(cfg, f, s, l))
  {
    assert PairedWith(f, s.items, s.workers[l.w]);
    var s' := ApplySettle(s, l.w);
    forall v | 0 <= v < |s'.workers| ensures PairedWith(f, s'.items, s'.workers[v]) {
      assert PairedWith(f, s.items, s.workers[v]);
    }
  }

  lemma {:induction false} ResultsEncode(f: Text -> Vec, s: State, w: nat, response: Response)
    requires ResultsOk(f, s) && w < |s.workers| && s.workers[w].Encoding?
    requires KnownItems(s.items, s.workers[w].batch)
    ensures var batch := s.workers[w].batch;
            PairedWith(f, s.items, Settling(batch, Outcomes(f, s.items, batch, response), 0))
  {
  }

  lemma {:induction false} CallCollects(f: Text -> Vec, items: seq<Item>, call: Call, v: Vec)
    requires CallOk(f, items, call) && |call.got| < call.count && v == f(items[call.first + |call.got|].text)
    ensures CallOk(f, items, call.(got := call.got + [v]))
  {
  }

  lemma {:induction false} ResultsCall(cfg: Config, f: Text -> Vec, s: State, l: Label)
    requires ResultsOk(f, s) && Enabled(cfg, s, l) && (l.Collect? || l.Raise?)
    ensures ResultsOk(f, Apply(cfg, f, s, l))
  {
    var call := s.calls[l.c];
    assert CallOk(f, s.items, call);
    var call' := Apply(cfg, f, s, l).calls[l.c];
    assert CallOk(f, s.items, call') by {
      if l.Collect? {
        CallCollects(f, s.items, call, s.futures[call.first + |call.got|].outcome.v);
      }
    }
    CallReplaced(f, s, l.c, call');
  }

  lemma {:induction false} CallReplaced(f: Text -> Vec, s: State, c: nat, call: Call)
    requires ResultsOk(f, s) && c < |s.calls| && CallOk(f, s.items, call)
    ensures ResultsOk(f, s.(calls := s.calls[c := call]))
  {
  }

  /** Replacing workers by ones that pair nothing, or pair rightly. */
  lemma {:induction false} ResultsWorkers(f: Text -> Vec, s: State, ws: seq<Worker>)
    requires ResultsOk(f, s) && |ws| == |s.workers|
    requires forall v :: 0 <= v < |ws| ==> ws[v] == s.workers[v] || PairedWith(f, s.items, ws[v])
    ensures forall v :: 0 <= v < |ws| ==> PairedWith(f, s.items, ws[v])
  {
    forall v | 0 <= v < |ws| ensures PairedWith(f, s.items, ws[v]) {
      assert PairedWith(f, s.items, s.workers[v]);
    }
  }

  lemma {:induction false} ResultsEncoded(cfg: Config, f: Text -> Vec, s: State, l: Label)
    requires ResultsOk(f, s) && Enabled(cfg, s, l) && l.Encode?
    ensures ResultsOk(f, Apply(cfg, f, s, l))
  {
    ResultsEncode(f, s, l.w, l.response);
    ResultsWorkers(f, s, Apply(cfg, f, s, l).workers);
  }

  lemma {:induction false} ResultsFutures(cfg: Config, f: Text -> Vec, s: State, l: Label)
    requires ResultsOk(f, s) && Enabled(cfg, s, l) && (l.Compose? || l.Cancel? || l.FailOne?)
    ensures ResultsOk(f, Apply(cfg, f, s, l))
  {
    ResultsWorkers(f, s, Apply(cfg, f, s, l).workers);
  }

  lemma {:induction false} ResultsOther(cfg: Config, f: Text -> Vec, s: State, l: Label)
    requires ResultsOk(f, s) && Enabled(cfg, s, l)
    requires l.Start? || l.Park? || l.OpenWindow? || l.Release? || l.Exit? || l.Close? || l.FailRemaining?
    ensures ResultsOk(f, Apply(cfg, f, s, l))
  {
    ResultsWorkers(f, s, Apply(cfg, f, s, l).workers);
  }

  lemma {:induction false} ResultsStep(cfg: Config, f: Text -> Vec, s: State, l: Label)
    requires ResultsOk(f, s) && Enabled(cfg, s, l)
    ensures ResultsOk(f, Apply(cfg, f, s, l))
  {
    if l.Admit? {
      ResultsAdmit(cfg, f, s, l);
    } else if l.Settle? {
      ResultsSettle(cfg, f, s, l);
    } else if l.Collect? || l.Raise? {
      ResultsCall(cfg, f, s, l);
    } else if l.Encode? {
      ResultsEncoded(cfg, f, s, l);
    } else if l.Compose? || l.Cancel? || l.FailOne? {
      ResultsFutures(cfg, f, s, l);
    } else {
      ResultsOther(cfg, f, s, l);
    }
  }

  // ------------------------------------------------------------------
  // The invariant over every run
  // ------------------------------------------------------------------

  ghost predicate Inv(cfg: Config, f: Text -> Vec, s: State) {
    && Placed(s)
    && Ordered(s)
    && ResultsOk(f, s)
    && Accounted(cfg, s)
    && WithinLimits(cfg, s)
    && Wakeful(cfg, s)
  }

  lemma {:induction false} CountersInit(cfg: Config, f: Text -> Vec)
    requires cfg.Valid()
    ensures Accounted(cfg, Init(cfg)) && WithinLimits(cfg, Init(cfg)) && Wakeful(cfg, Init(cfg))
    ensures ResultsOk(f, Init(cfg))
  {
    CountsNone([], Init(cfg).workers);
  }

  lemma {:induction false} InvInit(cfg: Config, f: Text -> Vec)
    requires cfg.Valid()
    ensures Inv(cfg, f, Init(cfg))
  {
    PlacedInit(cfg);
    OrderedInit(cfg);
    CountersInit(cfg, f);
  }

  lemma {:induction false} InvStep(cfg: Config, f: Text -> Vec, s: State, l: Label)
    requires cfg.Valid() && Inv(cfg, f, s) && Enabled(cfg, s, l)
    ensures Inv(cfg, f, Apply(cfg, f, s, l))
  {
    forall w | 0 <= w < |s.workers|
      ensures OutsOk(s.workers[w]) && (l.Start? ==> s.workers[w].NotStarted?)
    {
      assert PairedWith(f, s.items, s.workers[w]);
      assert WorkerAwareOf(cfg, s, s.workers[w]);
    }
    PlacedStep(cfg, f, s, l);
    OrderedStep(cfg, f, s, l);
    ResultsStep(cfg, f, s, l);
    AccountedStep(cfg, f, s, l);
    WithinLimitsStep(cfg, f, s, l);
    WakefulStep(cfg, f, s, l);
  }

  lemma {:induction false} InvRun(cfg: Config, f: Text -> Vec, s: State, labels: seq<Label>, t: State)
    requires cfg.Valid() && Inv(cfg, f, s) && Run(cfg, f, s, labels, t)
    ensures Inv(cfg, f, t)
    decreases |labels|
  {
    if labels != [] {
      InvStep(cfg, f, s, labels[0]);
      InvRun(cfg, f, Apply(cfg, f, s, labels[0]), labels[1..], t);
    }
  }

  lemma {:induction false} InvReachable(cfg: Config, f: Text -> Vec, s: State)
    requires cfg.Valid() && Reachable(cfg, f, s)
    ensures Inv(cfg, f, s)
  {
    var labels :| Run(cfg, f, Init(cfg), labels, s);
    InvInit(cfg, f);
    InvRun(cfg, f, Init(cfg), labels, s);
  }

  // ------------------------------------------------------------------
  // The shared-batch scheduler refines a plain map
  // ------------------------------------------------------------------

  function MapTexts(f: Text -> Vec, texts: seq<Text>): (vs: seq<Vec>)
    ensures |vs| == |texts|
  {
    seq(|texts|, i requires 0 <= i < |texts| => f(texts[i]))
  }

  /** Admitted texts never change, and a call keeps its items. */
  predicate Extends(s: State, t: State) {
    && s.items <= t.items
    && |s.calls| <= |t.calls|
    && forall c :: 0 <= c < |s.calls| ==>
         t.calls[c].first == s.calls[c].first && t.calls[c].count == s.calls[c].count
  }

  lemma {:induction false} ExtendsStep(cfg: Config, f: Text -> Vec, s: State, l: Label)
    requires Enabled(cfg, s, l)
    ensures Extends(s, Apply(cfg, f, s, l))
  {
  }

  lemma {:induction false} ExtendsTrans(s: State, t: State, u: State)
    requires Extends(s, t) && Extends(t, u)
    ensures Extends(s, u)
  {
  }

  lemma {:induction false} ExtendsRun(cfg: Config, f: Text -> Vec, s: State, labels: seq<Label>, t: State)
    requires Run(cfg, f, s, labels, t)
    ensures Extends(s, t)
    decreases |labels|
  {
    if labels != [] {
      ExtendsStep(cfg, f, s, labels[0]);
      ExtendsRun(cfg, f, Apply(cfg, f, s, labels[0]), labels[1..], t);
      ExtendsTrans(s, Apply(cfg, f, s, labels[0]), t);
    }
  }

  /** What a call of admitted `texts` holds in any later state with correct results. */
  lemma {:induction false} CallHolds(
    f: Text -> Vec, s: State, texts: seq<Text>, cls: Class, t: State)
    requires Extends(ApplyAdmit(s, texts, cls), t) && ResultsOk(f, t)
    ensures |s.calls| < |t.calls|
    ensures t.calls[|s.calls|].count == |texts| && t.calls[|s.calls|].got <= MapTexts(f, texts)
  {
    var s' := ApplyAdmit(s, texts, cls);
    var c := |s.calls|;
    assert s'.calls[c] == Call(|s.items|, |texts|, [], false);
    assert CallOk(f, t.items, t.calls[c]);
    forall i | 0 <= i < |texts| ensures t.items[|s.items| + i].text == texts[i] {
      assert s'.items[|s.items| + i] == Item(texts[i], cls);
    }
  }

  /** For every interleaving after its admission, an `encode` call that has collected all its results
      returns exactly `[model(t) for t in texts]` in submission order, and a call still collecting
      holds the beginning of that list. */
  lemma {:induction false} EncodeRefinesMap(
    cfg: Config, f: Text -> Vec, s: State, texts: seq<Text>, cls: Class, labels: seq<Label>, t: State)
    requires cfg.Valid() && Reachable(cfg, f, s) && Enabled(cfg, s, Admit(texts, cls))
    requires Run(cfg, f, Apply(cfg, f, s, Admit(texts, cls)), labels, t)
    ensures |s.calls| < |t.calls|
    ensures var call := t.calls[|s.calls|];
            && call.count == |texts|
            && call.got <= MapTexts(f, texts)
            && (|call.got| == call.count ==> call.got == MapTexts(f, texts))
  {
    InvReachable(cfg, f, s);
    InvStep(cfg, f, s, Admit(texts, cls));
    var s' := ApplyAdmit(s, texts, cls);
    InvRun(cfg, f, s', labels, t);
    ExtendsRun(cfg, f, s', labels, t);
    CallHolds(f, s, texts, cls, t);
  }

  // ------------------------------------------------------------------
  // Conservation over every run
  // ------------------------------------------------------------------

  lemma {:induction false} CountOfClass(items: seq<Item>, ids: seq<nat>, id: nat)
    requires KnownItems(items, ids) && id < |items|
    ensures Count(ids, id) == Count(OfClass(items, ids, items[id].cls), id)
  {
    if ids != [] {
      CountOfClass(items, ids[1..], id);
      var here := if items[ids[0]].cls == items[id].cls then [ids[0]] else [];
      CountConcat(here, OfClass(items, ids[1..], items[id].cls), id);
    }
  }

  lemma {:induction false} CountIncreasing(ids: seq<nat>, id: nat)
    requires Increasing(ids)
    ensures Count(ids, id) <= 1
  {
    if ids != [] {
      CountIncreasing(ids[1..], id);
      CountMember(ids[1..], id);
    }
  }

  lemma {:induction false} RanMembers(fs: seq<Future>, ids: seq<nat>)
    requires Known(fs, ids)
    ensures forall i :: 0 <= i < |RanIn(fs, ids)| ==> RanIn(fs, ids)[i] in ids
  {
    if ids != [] {
      RanMembers(fs, ids[1..]);
    }
  }

  lemma {:induction false} RanIncreasing(fs: seq<Future>, ids: seq<nat>)
    requires Known(fs, ids) && Increasing(ids)
    ensures Increasing(RanIn(fs, ids))
  {
    if ids != [] {
      RanIncreasing(fs, ids[1..]);
      RanMembers(fs, ids[1..]);
    }
  }

  lemma {:induction false} RanMember(fs: seq<Future>, ids: seq<nat>, id: nat)
    requires Known(fs, ids)
    ensures id in RanIn(fs, ids) <==> id in ids && Ran(fs[id])
  {
    if ids != [] {
      RanMember(fs, ids[1..], id);
    }
  }

  lemma {:induction false} OfClassMember(items: seq<Item>, ids: seq<nat>, id: nat)
    requires KnownItems(items, ids) && id < |items|
    ensures id in OfClass(items, ids, items[id].cls) <==> id in ids
  {
    CountOfClass(items, ids, id);
    CountMember(ids, id);
    CountMember(OfClass(items, ids, items[id].cls), id);
  }

  lemma {:induction false} GoneIncreasing(s: State, cls: Class)
    requires Ordered(s) && |s.items| == |s.futures|
    ensures Increasing(Gone(s, cls)) && Known(s.futures, Gone(s, cls))
  {
    var gone := Gone(s, cls);
    assert OrderedWith(s, cls, gone);
    OfClassIncreasing(s.items, NewIds(0, |s.items|), cls);
    assert gone == Admitted(s.items, cls)[..|gone|];
  }

  /** An item of a class is gone from its queue exactly when it is not in it. */
  lemma {:induction false} GoneExactly(s: State, id: nat)
    requires Ordered(s) && id < |s.items| == |s.futures|
    ensures id in Gone(s, s.items[id].cls) <==> id !in Queue(s, s.items[id].cls)
  {
    var cls := s.items[id].cls;
    var gone := Gone(s, cls);
    assert OrderedWith(s, cls, gone);
    assert NewIds(0, |s.items|)[id] == id;
    OfClassMember(s.items, NewIds(0, |s.items|), id);
    if id in gone {
      var i :| 0 <= i < |gone| && gone[i] == id;
      GoneNotQueued(s, cls, gone, i);
    }
  }

  lemma {:induction false} TakenOnce(s: State, id: nat)
    requires Ordered(s) && id < |s.items| == |s.futures|
    ensures KnownItems(s.items, Flatten(s.history))
    ensures Count(Flatten(s.history), id) <= 1
    ensures id in Flatten(s.history) <==> id !in Queue(s, s.items[id].cls) && Ran(s.futures[id])
  {
    var cls := s.items[id].cls;
    var gone := Gone(s, cls);
    GoneIncreasing(s, cls);
    assert OrderedWith(s, cls, gone);
    RanIncreasing(s.futures, gone);
    CountIncreasing(OfClass(s.items, Flatten(s.history), cls), id);
    CountOfClass(s.items, Flatten(s.history), id);
    OfClassMember(s.items, Flatten(s.history), id);
    RanMember(s.futures, gone, id);
    GoneExactly(s, id);
  }

  /** In every reachable state each admitted item is in exactly one place while its future is
      unsettled and in none afterwards, joins at most one batch, joins one if and only if its
      future has started running, and each class has been served in admission order. */
  lemma {:induction false} ConservationAndOrder(cfg: Config, f: Text -> Vec, s: State, id: nat)
    requires cfg.Valid() && Reachable(cfg, f, s) && id < |s.items|
    ensures |s.futures| == |s.items| && KnownItems(s.items, Flatten(s.history))
    ensures Held(s, id) == if Settled(s.futures[id]) then 0 else 1
    ensures Count(Flatten(s.history), id) <= 1
    ensures id in Flatten(s.history) <==> Ran(s.futures[id])
    ensures var cls := s.items[id].cls;
            && Gone(s, cls) + Queue(s, cls) == Admitted(s.items, cls)
            && Known(s.futures, Gone(s, cls))
            && OfClass(s.items, Flatten(s.history), cls) == RanIn(s.futures, Gone(s, cls))
  {
    InvReachable(cfg, f, s);
    RanOrWaits(s, id);
    TakenOnce(s, id);
    ServedInOrder(s, s.items[id].cls);
  }

  lemma {:induction false} RanOrWaits(s: State, id: nat)
    requires Placed(s) && id < |s.items|
    ensures |s.futures| == |s.items| && Held(s, id) == if Settled(s.futures[id]) then 0 else 1
    ensures id in Queue(s, s.items[id].cls) ==> !Ran(s.futures[id])
  {
    assert OnePlace(s, id);
  }

  lemma {:induction false} ServedInOrder(s: State, cls: Class)
    requires Ordered(s)
    ensures Gone(s, cls) + Queue(s, cls) == Admitted(s.items, cls)
    ensures Known(s.futures, Gone(s, cls)) && KnownItems(s.items, Flatten(s.history))
    ensures OfClass(s.items, Flatten(s.history), cls) == RanIn(s.futures, Gone(s, cls))
  {
    assert OrderedWith(s, cls, Gone(s, cls));
  }

  /** A settled future never changes again. */
  lemma {:induction false} SettledStep(cfg: Config, f: Text -> Vec, s: State, l: Label, id: nat)
    requires Placed(s) && Enabled(cfg, s, l) && id < |s.futures| && Settled(s.futures[id])
    ensures id < |Apply(cfg, f, s, l).futures|
    ensures Apply(cfg, f, s, l).futures[id] == s.futures[id]
  {
    if l.Settle? {
      var w := s.workers[l.w];
      assert WorkerOk(s.futures, w);
      assert Unsettled(w)[0] == w.batch[w.done];
    } else if l.Compose? {
      var c := ComposeOf(cfg, s.futures, s.live, s.background, s.backgroundInflight);
      if id in Popped(s, c.liveCut, c.backgroundCut) {
        PoppedOnce(s, c.liveCut, c.backgroundCut, id);
      }
    }
  }

  lemma {:induction false} SettledRun(
    cfg: Config, f: Text -> Vec, s: State, labels: seq<Label>, t: State, id: nat)
    requires cfg.Valid() && Inv(cfg, f, s) && Run(cfg, f, s, labels, t)
    requires id < |s.futures| && Settled(s.futures[id])
    ensures id < |t.futures| && t.futures[id] == s.futures[id]
    decreases |labels|
  {
    if labels != [] {
      SettledStep(cfg, f, s, labels[0], id);
      InvStep(cfg, f, s, labels[0]);
      SettledRun(cfg, f, Apply(cfg, f, s, labels[0]), labels[1..], t, id);
    }
  }

  /** Every item is settled at most once over any run. */
  lemma {:induction false} SettledOnce(
    cfg: Config, f: Text -> Vec, s: State, labels: seq<Label>, t: State, id: nat)
    requires cfg.Valid() && Reachable(cfg, f, s) && Run(cfg, f, s, labels, t)
    requires id < |s.futures| && Settled(s.futures[id])
    ensures id < |t.futures| && t.futures[id] == s.futures[id]
  {
    InvReachable(cfg, f, s);
    SettledRun(cfg, f, s, labels, t, id);
  }

  // ------------------------------------------------------------------
  // Workers and admission over every run
  // ------------------------------------------------------------------

  /** In every reachable state both counters are exact, so at least
      `inference_workers - max_background_inflight` workers hold no background item. */
  lemma {:induction false} WorkerAccounting(cfg: Config, f: Text -> Vec, s: State)
    requires cfg.Valid() && Reachable(cfg, f, s)
    ensures s.busy == CountBusy(s.workers)
    ensures s.backgroundInflight == CountBackground(s.items, s.workers) <= cfg.maxBackground
    ensures |s.workers| - CountBackground(s.items, s.workers) >= cfg.workers - cfg.maxBackground
  {
    InvReachable(cfg, f, s);
  }

  /** For `max_pending_items >= 2`, live submissions that fit the reservation together with the live
      items already pending are admitted at once, whatever background has queued. */
  lemma {:induction false} LiveReservationHolds(cfg: Config, f: Text -> Vec, s: State, texts: seq<Text>)
    requires cfg.Valid() && Reachable(cfg, f, s) && !s.closed && cfg.maxPending >= 2
    requires texts != [] && |s.live| + |texts| <= cfg.LiveReserve()
    ensures Enabled(cfg, s, Admit(texts, Live))
  {
    InvReachable(cfg, f, s);
  }

  /** With `max_pending_items == 1` the reservation is void: one background item blocks live. */
  lemma {:induction false} LiveReservationVoid(cfg: Config, f: Text -> Vec)
    requires cfg.Valid() && cfg.maxPending == 1
    ensures Enabled(cfg, Init(cfg), Admit([""], Background))
    ensures var s := Apply(cfg, f, Init(cfg), Admit([""], Background));
            && !s.closed && |s.live| + 1 <= cfg.LiveReserve()
            && !Enabled(cfg, s, Admit([""], Live))
  {
  }

  /** A full ingestion batch passes the oversize check exactly when
      `max_pending_items >= 2 * max_batch_size - 1`, which the constructor does not demand. */
  lemma {:induction false} IngestionBatchFits(cfg: Config)
    requires cfg.Valid()
    ensures cfg.maxBatch <= cfg.PendingLimit(Background) <==> cfg.maxPending >= 2 * cfg.maxBatch - 1
  {
    if cfg.maxPending / 2 >= cfg.maxBatch {
      assert cfg.LiveReserve() == cfg.maxBatch;
    } else if cfg.maxPending >= 2 {
      assert cfg.LiveReserve() == cfg.maxPending / 2;
    }
  }
}
