/** What one batch composition takes: how much, of which class, and in which order. */
module SchedulerCompose {
  import opened SchedulerModel

  lemma {:induction false} PendingConcat(fs: seq<Future>, a: seq<nat>, b: seq<nat>)
    requires Known(fs, a) && Known(fs, b)
    ensures Known(fs, a + b)
    ensures PendingIn(fs, a + b) == PendingIn(fs, a) + PendingIn(fs, b)
  {
    if a == [] {
      assert a + b == b;
    } else {
      assert (a + b)[1..] == a[1..] + b;
      PendingConcat(fs, a[1..], b);
    }
  }

  lemma {:induction false} PendingSplit(fs: seq<Future>, ids: seq<nat>, k: nat)
    requires Known(fs, ids) && k <= |ids|
    ensures PendingIn(fs, ids) == PendingIn(fs, ids[..k]) + PendingIn(fs, ids[k..])
  {
    PendingConcat(fs, ids[..k], ids[k..]);
    assert ids[..k] + ids[k..] == ids;
  }

  /** How often an item occurs. */
  function Count(ids: seq<nat>, id: nat): nat {
    if ids == [] then 0 else (if ids[0] == id then 1 else 0) + Count(ids[1..], id)
  }

  lemma {:induction false} CountConcat(a: seq<nat>, b: seq<nat>, id: nat)
    ensures Count(a + b, id) == Count(a, id) + Count(b, id)
  {
    if a == [] {
      assert a + b == b;
    } else {
      assert (a + b)[1..] == a[1..] + b;
      CountConcat(a[1..], b, id);
    }
  }

  lemma {:induction false} CountSplit(ids: seq<nat>, k: nat, id: nat)
    requires k <= |ids|
    ensures Count(ids, id) == Count(ids[..k], id) + Count(ids[k..], id)
  {
    CountConcat(ids[..k], ids[k..], id);
    assert ids[..k] + ids[k..] == ids;
  }

  lemma {:induction false} CountMember(ids: seq<nat>, id: nat)
    ensures id in ids <==> Count(ids, id) > 0
  {
    if ids != [] {
      CountMember(ids[1..], id);
    }
  }

  lemma {:induction false} PendingCount(fs: seq<Future>, ids: seq<nat>, id: nat)
    requires Known(fs, ids)
    ensures Count(PendingIn(fs, ids), id) ==
            if id < |fs| && fs[id].Pending? then Count(ids, id) else 0
  {
    if ids != [] {
      PendingCount(fs, ids[1..], id);
      if fs[ids[0]].Pending? {
        CountConcat([ids[0]], PendingIn(fs, ids[1..]), id);
      }
    }
  }

  lemma {:induction false} PendingMember(fs: seq<Future>, ids: seq<nat>, id: nat)
    requires Known(fs, ids)
    ensures id in PendingIn(fs, ids) <==> id in ids && fs[id].Pending?
  {
    PendingCount(fs, ids, id);
    CountMember(PendingIn(fs, ids), id);
    CountMember(ids, id);
  }

  /** Popping up to `capacity` fills as many slots as there are uncancelled entries. */
  lemma {:induction false} CutFills(fs: seq<Future>, ids: seq<nat>, capacity: nat)
    requires Known(fs, ids)
    ensures |PendingIn(fs, ids[..Cut(fs, ids, capacity)])| == Min(capacity, |PendingIn(fs, ids)|)
  {
    if capacity != 0 && ids != [] {
      var c' := if fs[ids[0]].Pending? then capacity - 1 else capacity;
      CutFills(fs, ids[1..], c');
      var k := Cut(fs, ids[1..], c');
      assert ids[..k + 1] == [ids[0]] + ids[1..][..k];
      PendingConcat(fs, [ids[0]], ids[1..][..k]);
      PendingConcat(fs, [ids[0]], ids[1..]);
      assert ids == [ids[0]] + ids[1..];
    }
  }

  lemma {:induction false} FirstSize(cfg: Config, fs: seq<Future>, live: seq<nat>, background: seq<nat>, inflight: int)
    requires cfg.Valid() && Known(fs, live) && Known(fs, background)
    ensures |ComposeOf(cfg, fs, live, background, inflight).first| ==
            Min(LiveCapacity(cfg, BackgroundAdmissible(cfg, background, inflight)), |PendingIn(fs, live)|)
  {
    CutFills(fs, live, LiveCapacity(cfg, BackgroundAdmissible(cfg, background, inflight)));
  }

  lemma {:induction false} MiddleSize(cfg: Config, fs: seq<Future>, live: seq<nat>, background: seq<nat>, inflight: int)
    requires cfg.Valid() && Known(fs, live) && Known(fs, background)
    ensures var c := ComposeOf(cfg, fs, live, background, inflight);
            && |c.first| <= cfg.maxBatch
            && |c.middle| == if BackgroundAdmissible(cfg, background, inflight)
                             then Min(cfg.maxBatch - |c.first|, |PendingIn(fs, background)|) else 0
  {
    FirstSize(cfg, fs, live, background, inflight);
    var c := ComposeOf(cfg, fs, live, background, inflight);
    if BackgroundAdmissible(cfg, background, inflight) {
      CutFills(fs, background, cfg.maxBatch - |c.first|);
    } else {
      assert background[..c.backgroundCut] == [];
    }
  }

  lemma {:induction false} LastSize(cfg: Config, fs: seq<Future>, live: seq<nat>, background: seq<nat>, inflight: int)
    requires cfg.Valid() && Known(fs, live) && Known(fs, background)
    ensures var c := ComposeOf(cfg, fs, live, background, inflight);
            && |c.first| + |c.middle| <= cfg.maxBatch
            && |c.first| <= |PendingIn(fs, live)|
            && |c.last| == Min(cfg.maxBatch - |c.first| - |c.middle|, |PendingIn(fs, live)| - |c.first|)
  {
    var c := ComposeOf(cfg, fs, live, background, inflight);
    MiddleSize(cfg, fs, live, background, inflight);
    var k1 := Cut(fs, live, LiveCapacity(cfg, BackgroundAdmissible(cfg, background, inflight)));
    PendingSplit(fs, live, k1);
    CutFills(fs, live[k1..], cfg.maxBatch - |c.first| - |c.middle|);
  }

  /** How many items each part of a composition holds. */
  lemma {:induction false} ComposeSizes(cfg: Config, fs: seq<Future>, live: seq<nat>, background: seq<nat>, inflight: int)
    requires cfg.Valid() && Known(fs, live) && Known(fs, background)
    ensures var c := ComposeOf(cfg, fs, live, background, inflight);
            var allow := BackgroundAdmissible(cfg, background, inflight);
            var l := |PendingIn(fs, live)|;
            var b := |PendingIn(fs, background)|;
            && |c.first| + |c.middle| <= cfg.maxBatch
            && |c.first| <= l
            && |c.first| == Min(LiveCapacity(cfg, allow), l)
            && |c.middle| == (if allow then Min(cfg.maxBatch - |c.first|, b) else 0)
            && |c.last| == Min(cfg.maxBatch - |c.first| - |c.middle|, l - |c.first|)
  {
    FirstSize(cfg, fs, live, background, inflight);
    MiddleSize(cfg, fs, live, background, inflight);
    LastSize(cfg, fs, live, background, inflight);
  }

  /** The two live parts together are the uncancelled prefix popped from the live queue. */
  lemma {:induction false} ComposePrefixes(cfg: Config, fs: seq<Future>, live: seq<nat>, background: seq<nat>, inflight: int)
    requires Known(fs, live) && Known(fs, background)
    ensures var c := ComposeOf(cfg, fs, live, background, inflight);
            && PendingIn(fs, live[..c.liveCut]) == c.first + c.last
            && PendingIn(fs, background[..c.backgroundCut]) == c.middle
  {
    var c := ComposeOf(cfg, fs, live, background, inflight);
    var k1 := Cut(fs, live, LiveCapacity(cfg, BackgroundAdmissible(cfg, background, inflight)));
    var k3 := c.liveCut - k1;
    assert live[..c.liveCut] == live[..k1] + live[k1..][..k3];
    PendingConcat(fs, live[..k1], live[k1..][..k3]);
  }

  /** Every composition is work-conserving: with a free background slot it takes
      `min(max_batch_size, live + background)` uncancelled items, otherwise `min(max_batch_size, live)`. */
  lemma {:induction false} ComposeIsWorkConserving(cfg: Config, fs: seq<Future>, live: seq<nat>, background: seq<nat>, inflight: int)
    requires cfg.Valid() && Known(fs, live) && Known(fs, background)
    ensures var l := |PendingIn(fs, live)|;
            var b := |PendingIn(fs, background)|;
            |ComposeOf(cfg, fs, live, background, inflight).Batch()| ==
            Min(cfg.maxBatch, if inflight < cfg.maxBackground then l + b else l)
  {
    ComposeSizes(cfg, fs, live, background, inflight);
  }

  /** The two batch reservations: live always has `max_batch_size - background_floor` slots,
      and background has `background_floor` of them whenever a background slot is free. */
  lemma {:induction false} ComposeReservations(cfg: Config, fs: seq<Future>, live: seq<nat>, background: seq<nat>, inflight: int)
    requires cfg.Valid() && Known(fs, live) && Known(fs, background)
    ensures var c := ComposeOf(cfg, fs, live, background, inflight);
            && |PendingIn(fs, live[..c.liveCut])| >=
               Min(cfg.maxBatch - cfg.BackgroundFloor(), |PendingIn(fs, live)|)
            && (inflight < cfg.maxBackground ==>
                  |PendingIn(fs, background[..c.backgroundCut])| >=
                  Min(cfg.BackgroundFloor(), |PendingIn(fs, background)|))
            && (inflight >= cfg.maxBackground ==> c.backgroundCut == 0)
  {
    ComposeSizes(cfg, fs, live, background, inflight);
    ComposePrefixes(cfg, fs, live, background, inflight);
  }

  // ------------------------------------------------------------------
  // Order per class
  // ------------------------------------------------------------------

  predicate KnownItems(items: seq<Item>, ids: seq<nat>) {
    forall i :: 0 <= i < |ids| ==> ids[i] < |items|
  }

  predicate AllOfClass(items: seq<Item>, ids: seq<nat>, cls: Class) {
    forall i :: 0 <= i < |ids| ==> ids[i] < |items| && items[ids[i]].cls == cls
  }

  /** The entries of one class, in order. */
  function OfClass(items: seq<Item>, ids: seq<nat>, cls: Class): seq<nat>
    requires KnownItems(items, ids)
  {
    if ids == [] then []
    else (if items[ids[0]].cls == cls then [ids[0]] else []) + OfClass(items, ids[1..], cls)
  }

  lemma {:induction false} OfClassConcat(items: seq<Item>, a: seq<nat>, b: seq<nat>, cls: Class)
    requires KnownItems(items, a) && KnownItems(items, b)
    ensures KnownItems(items, a + b)
    ensures OfClass(items, a + b, cls) == OfClass(items, a, cls) + OfClass(items, b, cls)
  {
    if a == [] {
      assert a + b == b;
    } else {
      assert (a + b)[1..] == a[1..] + b;
      OfClassConcat(items, a[1..], b, cls);
    }
  }

  lemma {:induction false} OfClassConcat3(items: seq<Item>, a: seq<nat>, b: seq<nat>, c: seq<nat>, cls: Class)
    requires KnownItems(items, a) && KnownItems(items, b) && KnownItems(items, c)
    ensures KnownItems(items, a + b + c)
    ensures OfClass(items, a + b + c, cls) ==
            OfClass(items, a, cls) + OfClass(items, b, cls) + OfClass(items, c, cls)
  {
    OfClassConcat(items, a, b, cls);
    OfClassConcat(items, a + b, c, cls);
  }

  lemma {:induction false} OfClassParts(items: seq<Item>, a: seq<nat>, b: seq<nat>, cls: Class)
    requires AllOfClass(items, a + b, cls)
    ensures AllOfClass(items, a, cls) && AllOfClass(items, b, cls)
  {
    assert forall i :: 0 <= i < |a| ==> a[i] == (a + b)[i];
    assert forall i :: 0 <= i < |b| ==> b[i] == (a + b)[|a| + i];
  }

  lemma {:induction false} OfClassAll(items: seq<Item>, ids: seq<nat>, own: Class, cls: Class)
    requires AllOfClass(items, ids, own)
    ensures OfClass(items, ids, cls) == if cls == own then ids else []
  {
    if ids != [] {
      OfClassAll(items, ids[1..], own, cls);
    }
  }

  lemma {:induction false} OfClassExtend(items: seq<Item>, more: seq<Item>, ids: seq<nat>, cls: Class)
    requires KnownItems(items, ids)
    ensures KnownItems(items + more, ids)
    ensures OfClass(items + more, ids, cls) == OfClass(items, ids, cls)
  {
    if ids != [] {
      OfClassExtend(items, more, ids[1..], cls);
    }
  }

  lemma {:induction false} PendingOfClass(fs: seq<Future>, items: seq<Item>, ids: seq<nat>, cls: Class)
    requires Known(fs, ids) && AllOfClass(items, ids, cls)
    ensures AllOfClass(items, PendingIn(fs, ids), cls)
  {
    if ids != [] {
      PendingOfClass(fs, items, ids[1..], cls);
    }
  }

  lemma {:induction false} MixedOrder(items: seq<Item>, first: seq<nat>, middle: seq<nat>, last: seq<nat>, cls: Class)
    requires AllOfClass(items, first, Live) && AllOfClass(items, middle, Background)
    requires AllOfClass(items, last, Live)
    ensures KnownItems(items, first + middle + last)
    ensures OfClass(items, first + middle + last, cls) == if cls.Live? then first + last else middle
  {
    OfClassAll(items, first, Live, cls);
    OfClassAll(items, middle, Background, cls);
    OfClassAll(items, last, Live, cls);
    OfClassConcat3(items, first, middle, last, cls);
    DropEmpty(OfClass(items, first, cls), OfClass(items, middle, cls), OfClass(items, last, cls));
  }

  lemma {:induction false} DropEmpty(a: seq<nat>, b: seq<nat>, c: seq<nat>)
    ensures b == [] ==> a + b + c == a + c
    ensures a == [] && c == [] ==> a + b + c == b
  {
  }

  /** Restricted to one class, a batch is the uncancelled prefix popped from that class's queue. */
  lemma {:induction false} BatchOrder(cfg: Config, items: seq<Item>, fs: seq<Future>, live: seq<nat>, background: seq<nat>, inflight: int)
    requires Known(fs, live) && Known(fs, background)
    requires AllOfClass(items, live, Live) && AllOfClass(items, background, Background)
    ensures var c := ComposeOf(cfg, fs, live, background, inflight);
            && KnownItems(items, c.Batch())
            && OfClass(items, c.Batch(), Live) == PendingIn(fs, live[..c.liveCut])
            && OfClass(items, c.Batch(), Background) == PendingIn(fs, background[..c.backgroundCut])
  {
    var c := ComposeOf(cfg, fs, live, background, inflight);
    ComposePrefixes(cfg, fs, live, background, inflight);
    PendingOfClass(fs, items, live[..c.liveCut], Live);
    PendingOfClass(fs, items, background[..c.backgroundCut], Background);
    OfClassParts(items, c.first, c.last, Live);
    MixedOrder(items, c.first, c.middle, c.last, Live);
    MixedOrder(items, c.first, c.middle, c.last, Background);
  }
}
