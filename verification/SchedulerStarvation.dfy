/** When live work waits boundedly, exactly: the batch reservation needs room for two items, and
    otherwise only a pending bound too small for background to slip past a live item helps. */
module SchedulerStarvation {
  import opened SchedulerModel
  import opened SchedulerCompose
  import opened SchedulerPlacement
  import opened SchedulerOrder
  import opened SchedulerResults
  import opened SchedulerWaiting

  /** Some number of compositions is enough for the item, whatever else happens. */
  ghost predicate ServedWithin(cfg: Config, f: Text -> Vec, s: State, id: nat, n: nat) {
    forall labels, t ::
      Run(cfg, f, s, labels, t) && Served(cfg, f, s, labels, Live) >= n ==> !Waits(t, Live, id)
  }

  /** Every waiting live item has such a number. */
  ghost predicate LiveBounded(cfg: Config, f: Text -> Vec) {
    forall s, id :: Reachable(cfg, f, s) && Waits(s, Live, id) ==> exists n :: ServedWithin(cfg, f, s, id, n)
  }

  // ------------------------------------------------------------------
  // Starvation with one-item batches
  // ------------------------------------------------------------------

  /** Live item 0 waits while worker 0 is about to compose background item `b`. */
  predicate Starving(s: State, b: nat) {
    && |s.items| == |s.futures| == b + 1 && b > 0
    && s.live == [0] && s.background == [b]
    && s.futures[0].Pending? && s.futures[b].Pending?
    && s.items[b].cls.Background?
    && |s.workers| > 0 && s.workers[0].Window?
    && s.backgroundInflight == 0
    && !s.closed
  }

  /** The same, with the background item in worker 0's hands. */
  predicate Overtaken0(s: State, b: nat, w: Worker) {
    && |s.items| == |s.futures| == b + 1 && b > 0
    && s.live == [0] && s.background == []
    && s.futures[0].Pending? && s.items[b].cls.Background?
    && |s.workers| > 0 && s.workers[0] == w
    && !s.closed
  }

  lemma {:induction false} StarvingComposition(cfg: Config, s: State, b: nat)
    requires cfg.Valid() && cfg.maxBatch == 1 && Starving(s, b)
    ensures Known(s.futures, s.live) && Known(s.futures, s.background)
    ensures ComposeOf(cfg, s.futures, s.live, s.background, s.backgroundInflight) == Composition(0, 1, [], [b], [])
  {
    assert s.background[..1] == [b] && s.live[..0] == [];
    assert PendingIn(s.futures, [b]) == [b];
    assert Cut(s.futures, s.background, 1) == 1;
  }

  /** Some run with `n` compositions leads from `s` to `t`. */
  ghost predicate Path(cfg: Config, f: Text -> Vec, s: State, n: nat, t: State) {
    exists labels :: Run(cfg, f, s, labels, t) && Served(cfg, f, s, labels, Live) == n
  }

  lemma {:induction false} PathStep(cfg: Config, f: Text -> Vec, s: State, l: Label, n: nat, t: State)
    requires Enabled(cfg, s, l) && Path(cfg, f, Apply(cfg, f, s, l), n, t)
    ensures Path(cfg, f, s, n + (if l.Compose? then 1 else 0), t)
  {
    var rest :| Run(cfg, f, Apply(cfg, f, s, l), rest, t) && Served(cfg, f, Apply(cfg, f, s, l), rest, Live) == n;
    ServedCons(cfg, f, s, l, rest, t);
  }

  lemma {:induction false} PathNone(cfg: Config, f: Text -> Vec, s: State)
    ensures Path(cfg, f, s, 0, s)
  {
    assert Run(cfg, f, s, [], s) && Served(cfg, f, s, [], Live) == 0;
  }

  // One cycle, told backwards: each lemma takes one step and hands over to the next one.

  lemma {:induction false} Starve5(cfg: Config, f: Text -> Vec, s: State, b: nat) returns (t: State)
    requires cfg.Valid() && cfg.maxBatch == 1 && cfg.maxPending >= 3
    requires Overtaken0(s, b, Awake) && s.backgroundInflight == 0
    ensures Starving(t, b + 1) && Path(cfg, f, s, 0, t)
  {
    var s' := Apply(cfg, f, s, Admit([""], Background));
    t := Apply(cfg, f, s', OpenWindow(0));
    PathNone(cfg, f, t);
    PathStep(cfg, f, s', OpenWindow(0), 0, t);
    PathStep(cfg, f, s, Admit([""], Background), 0, t);
  }

  lemma {:induction false} Starve4(cfg: Config, f: Text -> Vec, s: State, b: nat) returns (t: State)
    requires cfg.Valid() && cfg.maxBatch == 1 && cfg.maxPending >= 3
    requires Overtaken0(s, b, Settling([b], [ModelError], 1)) && s.backgroundInflight == 1
    ensures Starving(t, b + 1) && Path(cfg, f, s, 0, t)
  {
    assert CarriesBackground(s.items, [b]) by {
      assert [b][0] == b;
    }
    t := Starve5(cfg, f, Apply(cfg, f, s, Release(0)), b);
    PathStep(cfg, f, s, Release(0), 0, t);
  }

  lemma {:induction false} Starve3(cfg: Config, f: Text -> Vec, s: State, b: nat) returns (t: State)
    requires cfg.Valid() && cfg.maxBatch == 1 && cfg.maxPending >= 3
    requires Overtaken0(s, b, Settling([b], [ModelError], 0)) && s.backgroundInflight == 1
    ensures Starving(t, b + 1) && Path(cfg, f, s, 0, t)
  {
    t := Starve4(cfg, f, Apply(cfg, f, s, Settle(0)), b);
    PathStep(cfg, f, s, Settle(0), 0, t);
  }

  lemma {:induction false} Starve2(cfg: Config, f: Text -> Vec, s: State, b: nat) returns (t: State)
    requires cfg.Valid() && cfg.maxBatch == 1 && cfg.maxPending >= 3
    requires Overtaken0(s, b, Encoding([b])) && s.backgroundInflight == 1
    ensures Starving(t, b + 1) && Path(cfg, f, s, 0, t)
  {
    assert Outcomes(f, s.items, [b], Raised) == [ModelError];
    t := Starve3(cfg, f, Apply(cfg, f, s, Encode(0, Raised)), b);
    PathStep(cfg, f, s, Encode(0, Raised), 0, t);
  }

  /** One more background item passes the waiting live item. */
  lemma {:induction false} StarveCycle(cfg: Config, f: Text -> Vec, s: State, b: nat) returns (t: State)
    requires cfg.Valid() && cfg.maxBatch == 1 && cfg.maxPending >= 3 && Starving(s, b)
    ensures Starving(t, b + 1) && Path(cfg, f, s, 1, t)
  {
    StarvingComposition(cfg, s, b);
    assert s.background[1..] == [] && s.live[0..] == s.live;
    assert [] + [b] + [] == [b];
    assert CarriesBackground(s.items, [b]) by {
      assert [b][0] == b;
    }
    t := Starve2(cfg, f, Apply(cfg, f, s, Compose(0)), b);
    PathStep(cfg, f, s, Compose(0), 0, t);
  }

  lemma {:induction false} ServedCons(cfg: Config, f: Text -> Vec, s: State, l: Label, rest: seq<Label>, t: State)
    requires Enabled(cfg, s, l) && Run(cfg, f, Apply(cfg, f, s, l), rest, t)
    ensures Run(cfg, f, s, [l] + rest, t)
    ensures Served(cfg, f, s, [l] + rest, Live) ==
            (if l.Compose? then 1 else 0) + Served(cfg, f, Apply(cfg, f, s, l), rest, Live)
  {
    assert ([l] + rest)[1..] == rest;
  }

  lemma {:induction false} ServedJoin(cfg: Config, f: Text -> Vec, s: State, a: seq<Label>, t: State, b: seq<Label>, u: State)
    requires Run(cfg, f, s, a, t) && Run(cfg, f, t, b, u)
    ensures Run(cfg, f, s, a + b, u)
    ensures Served(cfg, f, s, a + b, Live) == Served(cfg, f, s, a, Live) + Served(cfg, f, t, b, Live)
    decreases |a|
  {
    if a == [] {
      assert a + b == b;
    } else {
      ServedJoin(cfg, f, Apply(cfg, f, s, a[0]), a[1..], t, b, u);
      assert (a + b)[1..] == a[1..] + b;
    }
  }

  lemma {:induction false} PathJoin(cfg: Config, f: Text -> Vec, s: State, m: nat, t: State, n: nat, u: State)
    requires Path(cfg, f, s, m, t) && Path(cfg, f, t, n, u)
    ensures Path(cfg, f, s, m + n, u)
  {
    var a :| Run(cfg, f, s, a, t) && Served(cfg, f, s, a, Live) == m;
    var b :| Run(cfg, f, t, b, u) && Served(cfg, f, t, b, Live) == n;
    ServedJoin(cfg, f, s, a, t, b, u);
  }

  /** Any number of compositions can pass the waiting live item. */
  lemma {:induction false} StarveLong(cfg: Config, f: Text -> Vec, s: State, b: nat, n: nat) returns (t: State)
    requires cfg.Valid() && cfg.maxBatch == 1 && cfg.maxPending >= 3 && Starving(s, b)
    ensures Path(cfg, f, s, n, t) && Starving(t, b + n)
    decreases n
  {
    if n == 0 {
      t := s;
      PathNone(cfg, f, s);
    } else {
      var mid := StarveCycle(cfg, f, s, b);
      t := StarveLong(cfg, f, mid, b + 1, n - 1);
      PathJoin(cfg, f, s, 1, mid, n - 1, t);
    }
  }

  lemma {:induction false} StarveStart(cfg: Config, f: Text -> Vec) returns (s: State)
    requires cfg.Valid() && cfg.maxBatch == 1 && cfg.maxPending >= 3
    ensures Reachable(cfg, f, s) && Starving(s, 1) && Waits(s, Live, 0)
  {
    var s1 := Apply(cfg, f, Init(cfg), Start);
    assert Run(cfg, f, Init(cfg), [], Init(cfg));
    ReachableStep(cfg, f, Init(cfg), Start);
    var s2 := Apply(cfg, f, s1, Admit([""], Live));
    ReachableStep(cfg, f, s1, Admit([""], Live));
    assert s2.live == [0] && s2.background == [] && s2.futures == [Pending];
    s := StarveFrom(cfg, f, s2);
  }

  lemma {:induction false} StarveFrom(cfg: Config, f: Text -> Vec, s2: State) returns (s: State)
    requires cfg.Valid() && cfg.maxBatch == 1 && cfg.maxPending >= 3 && Reachable(cfg, f, s2)
    requires |s2.items| == 1 && s2.live == [0] && s2.background == [] && s2.futures == [Pending]
    requires |s2.workers| > 0 && s2.workers[0].Awake? && s2.backgroundInflight == 0 && !s2.closed
    ensures Reachable(cfg, f, s) && Starving(s, 1) && Waits(s, Live, 0)
  {
    var s3 := Apply(cfg, f, s2, Admit([""], Background));
    ReachableStep(cfg, f, s2, Admit([""], Background));
    s := Apply(cfg, f, s3, OpenWindow(0));
    ReachableStep(cfg, f, s3, OpenWindow(0));
    assert s.live[0] == 0;
  }

  lemma {:induction false} Starves(cfg: Config, f: Text -> Vec)
    requires cfg.Valid() && cfg.maxBatch == 1 && cfg.maxPending >= 3
    ensures !LiveBounded(cfg, f)
  {
    var s := StarveStart(cfg, f);
    forall n: nat ensures !ServedWithin(cfg, f, s, 0, n) {
      var t := StarveLong(cfg, f, s, 1, n);
      var labels :| Run(cfg, f, s, labels, t) && Served(cfg, f, s, labels, Live) == n;
      assert t.live[0] == 0;
      assert Waits(t, Live, 0);
    }
  }

  // ------------------------------------------------------------------
  // Tiny pending bounds
  // ------------------------------------------------------------------

  /** What can still go ahead of a live item when nothing more can be admitted to background. */
  function Before(s: State, id: nat): nat {
    AheadOf(s, Live, id) + |s.background|
  }

  lemma {:induction false} TinyAdmit(cfg: Config, s: State, l: Label, id: nat)
    requires cfg.Valid() && cfg.maxBatch == 1 && cfg.maxPending <= 2
    requires Waits(s, Live, id) && Enabled(cfg, s, l)
    ensures !(l.Admit? && l.cls.Background?)
  {
  }

  /** While a live item waits, a composition that takes no background item takes a live one. */
  lemma {:induction false} LiveTaken(cfg: Config, s: State, id: nat)
    requires cfg.Valid() && Placed(s) && Waits(s, Live, id)
    ensures var c := ComposeOf(cfg, s.futures, s.live, s.background, s.backgroundInflight);
            c.backgroundCut > 0 || |PendingIn(s.futures, s.live[..c.liveCut])| >= 1
  {
    ComposeIsWorkConserving(cfg, s.futures, s.live, s.background, s.backgroundInflight);
    ComposePrefixes(cfg, s.futures, s.live, s.background, s.backgroundInflight);
    PendingMember(s.futures, s.live, id);
    assert |PendingIn(s.futures, s.live)| > 0;
  }

  lemma {:induction false} TinyCompose(cfg: Config, f: Text -> Vec, s: State, w: nat, id: nat)
    requires cfg.Valid() && Placed(s) && Enabled(cfg, s, Compose(w)) && Waits(s, Live, id)
    requires Waits(Apply(cfg, f, s, Compose(w)), Live, id)
    ensures Before(Apply(cfg, f, s, Compose(w)), id) + 1 <= Before(s, id)
  {
    var c := ComposeOf(cfg, s.futures, s.live, s.background, s.backgroundInflight);
    LiveTaken(cfg, s, id);
    TinyTake(s, w, c.liveCut, c.backgroundCut, c.Batch(), id);
  }

  lemma {:induction false} TinyTake(s: State, w: nat, a: nat, b: nat, batch: seq<nat>, id: nat)
    requires Placed(s) && w < |s.workers| && a <= |s.live| && b <= |s.background|
    requires Waits(ApplyTake(s, w, a, b, batch), Live, id)
    requires b > 0 || |PendingIn(s.futures, s.live[..a])| >= 1
    ensures Before(ApplyTake(s, w, a, b, batch), id) + 1 <= Before(s, id)
  {
    WaitsTake(s, w, a, b, batch, Live, id, if b > 0 then 0 else 1);
  }

  lemma {:induction false} TinyStep(cfg: Config, f: Text -> Vec, s: State, l: Label, id: nat)
    requires cfg.Valid() && cfg.maxBatch == 1 && cfg.maxPending <= 2
    requires Placed(s) && Enabled(cfg, s, l) && QueuesOk(Apply(cfg, f, s, l))
    requires id < |s.futures| && Waits(Apply(cfg, f, s, l), Live, id)
    ensures Waits(s, Live, id)
    ensures Before(Apply(cfg, f, s, l), id) + (if l.Compose? then 1 else 0) <= Before(s, id)
  {
    WaitsStep(cfg, f, s, l, Live, id);
    if l.Compose? {
      TinyCompose(cfg, f, s, l.w, id);
    } else {
      TinyAdmit(cfg, s, l, id);
      OtherQueues(cfg, f, s, l, Background);
    }
  }

  lemma {:induction false} TinyRun(cfg: Config, f: Text -> Vec, s: State, labels: seq<Label>, t: State, id: nat)
    requires cfg.Valid() && cfg.maxBatch == 1 && cfg.maxPending <= 2
    requires Inv(cfg, f, s) && Run(cfg, f, s, labels, t) && id < |s.futures| && Waits(t, Live, id)
    ensures Waits(s, Live, id) && Served(cfg, f, s, labels, Live) <= Before(s, id)
    decreases |labels|
  {
    if labels != [] {
      InvStep(cfg, f, s, labels[0]);
      FuturesGrow(cfg, f, s, labels[0]);
      TinyRun(cfg, f, Apply(cfg, f, s, labels[0]), labels[1..], t, id);
      TinyStep(cfg, f, s, labels[0], id);
    }
  }

  // ------------------------------------------------------------------
  // Exactly when
  // ------------------------------------------------------------------

  lemma {:induction false} ReservationRun(
    cfg: Config, f: Text -> Vec, s: State, id: nat, n: nat, slots: nat, labels: seq<Label>, t: State)
    requires cfg.Valid() && slots == Slots(cfg, Live) && Inv(cfg, f, s) && Waits(s, Live, id)
    requires n * slots > AheadOf(s, Live, id)
    requires Run(cfg, f, s, labels, t) && Served(cfg, f, s, labels, Live) >= n
    ensures !Waits(t, Live, id)
  {
    if Waits(t, Live, id) {
      WaitsRun(cfg, f, s, labels, t, Live, id, slots);
      MulMono(n, Served(cfg, f, s, labels, Live), slots);
      assert false;
    }
  }

  lemma {:induction false} BoundByReservation(cfg: Config, f: Text -> Vec, s: State, id: nat, n: nat, slots: nat)
    requires cfg.Valid() && slots == Slots(cfg, Live) && Inv(cfg, f, s) && Waits(s, Live, id)
    requires n * slots > AheadOf(s, Live, id)
    ensures ServedWithin(cfg, f, s, id, n)
  {
    forall labels, t | Run(cfg, f, s, labels, t) && Served(cfg, f, s, labels, Live) >= n
      ensures !Waits(t, Live, id)
    {
      ReservationRun(cfg, f, s, id, n, slots, labels, t);
    }
  }

  lemma {:induction false} BoundByTinyQueue(cfg: Config, f: Text -> Vec, s: State, id: nat)
    requires cfg.Valid() && cfg.maxBatch == 1 && cfg.maxPending <= 2 && Inv(cfg, f, s) && id < |s.futures|
    ensures ServedWithin(cfg, f, s, id, Before(s, id) + 1)
  {
    forall labels, t | Run(cfg, f, s, labels, t) && Served(cfg, f, s, labels, Live) >= Before(s, id) + 1
      ensures !Waits(t, Live, id)
    {
      if Waits(t, Live, id) {
        TinyRun(cfg, f, s, labels, t, id);
      }
    }
  }

  lemma {:induction false} Enough(p: nat, slots: nat)
    requires slots > 0
    ensures (p + 1) * slots > p
  {
    MulMono(1, slots, p + 1);
  }

  lemma {:induction false} Bound(cfg: Config, f: Text -> Vec, s: State, id: nat) returns (n: nat)
    requires cfg.Valid() && (cfg.maxBatch >= 2 || cfg.maxPending <= 2)
    requires Inv(cfg, f, s) && Waits(s, Live, id)
    ensures ServedWithin(cfg, f, s, id, n)
  {
    if cfg.maxBatch >= 2 {
      n := AheadOf(s, Live, id) + 1;
      SlotsPositive(cfg, Live);
      Enough(AheadOf(s, Live, id), Slots(cfg, Live));
      BoundByReservation(cfg, f, s, id, n, Slots(cfg, Live));
    } else {
      n := Before(s, id) + 1;
      BoundByTinyQueue(cfg, f, s, id);
    }
  }

  /** Live waiting is bounded if and only if a batch holds at least two items or at most two items
      can be pending. With one-item batches the background floor is the whole batch, so a stream of
      ingestion items starves a live query forever. */
  lemma {:induction false} LiveWaitingExactly(cfg: Config, f: Text -> Vec)
    requires cfg.Valid()
    ensures LiveBounded(cfg, f) <==> cfg.maxBatch >= 2 || cfg.maxPending <= 2
  {
    if cfg.maxBatch >= 2 || cfg.maxPending <= 2 {
      forall s, id | Reachable(cfg, f, s) && Waits(s, Live, id) ensures exists n :: ServedWithin(cfg, f, s, id, n) {
        InvReachable(cfg, f, s);
        var n := Bound(cfg, f, s, id);
      }
    } else {
      Starves(cfg, f);
    }
  }
}
