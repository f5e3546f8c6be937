/** The breaker against its own trace: when it opens, probes and closes, read off the labels of the run
    instead of its counters. */
module BreakerTrace {
  import opened Breaker

  // ------------------------------------------------------------------
  // Reading a trace
  // ------------------------------------------------------------------

  /** The failures after the last success. */
  function FailuresInARow(trace: seq<Label>): nat
    decreases |trace|
  {
    if trace == [] then 0
    else
      var l, early := trace[|trace| - 1], trace[..|trace| - 1];
      if l.Success? then 0 else FailuresInARow(early) + if l.Failure? then 1 else 0
  }

  function Successes(trace: seq<Label>): nat
    decreases |trace|
  {
    if trace == [] then 0 else Successes(trace[..|trace| - 1]) + if trace[|trace| - 1].Success? then 1 else 0
  }

  function CallsIn(trace: seq<Label>): nat
    decreases |trace|
  {
    if trace == [] then 0 else CallsIn(trace[..|trace| - 1]) + if trace[|trace| - 1].Call? then 1 else 0
  }

  lemma {:induction false} TraceSnoc(trace: seq<Label>, l: Label)
    ensures FailuresInARow(trace + [l]) == if l.Success? then 0 else FailuresInARow(trace) + if l.Failure? then 1 else 0
    ensures Successes(trace + [l]) == Successes(trace) + if l.Success? then 1 else 0
    ensures CallsIn(trace + [l]) == CallsIn(trace) + if l.Call? then 1 else 0
  {
    assert (trace + [l])[..|trace|] == trace;
  }

  /** What has been going on: the mode, the labels since it began, and when the circuit last opened. A
      half-open spell begins with the label that found the timeout passed. */
  datatype Spell = Spell(mode: Mode, trace: seq<Label>, openedAt: real)

  /** The next spell: only failures in a row open a closed circuit; only time starts the probing; one
      failure ends it and enough successes close the circuit; a reset closes it always. */
  function Follow(cfg: Config, sp: Spell, l: Label): Spell {
    var longer := sp.trace + [l];
    if l.Reset? then Spell(Closed, [], sp.openedAt)
    else match sp.mode
      case Closed =>
        if l.Failure? && FailuresInARow(longer) >= cfg.failureThreshold then Spell(Open, [], l.at)
        else sp.(trace := longer)
      case Open =>
        if (l.Call? || l.ReadState?) && l.at >= sp.openedAt + cfg.recoveryTimeout then Spell(HalfOpen, [l], sp.openedAt)
        else sp.(trace := longer)
      case HalfOpen =>
        if l.Failure? then Spell(Open, [], l.at)
        else if l.Success? && Successes(longer) >= cfg.successThreshold then Spell(Closed, [], sp.openedAt)
        else sp.(trace := longer)
  }

  function FollowAll(cfg: Config, sp: Spell, labels: seq<Label>): Spell
    decreases |labels|
  {
    if labels == [] then sp else FollowAll(cfg, Follow(cfg, sp, labels[0]), labels[1..])
  }

  /** The call is let through: the circuit is closed, or probing with calls to spare, counting the one that
      would start the probing. */
  predicate LetsThrough(cfg: Config, sp: Spell, at: real) {
    var next := Follow(cfg, sp, Call(at));
    next.mode.Closed? || (next.mode.HalfOpen? && CallsIn(next.trace) <= cfg.halfOpenMax)
  }

  // ------------------------------------------------------------------
  // The counters are those of the trace
  // ------------------------------------------------------------------

  predicate Matches(cfg: Config, s: State, sp: Spell) {
    && s.mode == sp.mode
    && (s.mode.Closed? ==> s.failures == FailuresInARow(sp.trace))
    && (s.mode.Open? ==> s.openedAt == sp.openedAt)
    && (s.mode.HalfOpen? ==>
          && s.successes == Successes(sp.trace)
          && s.probes == if CallsIn(sp.trace) <= cfg.halfOpenMax then CallsIn(sp.trace) else cfg.halfOpenMax)
  }

  lemma {:induction false} Singles(l: Label)
    ensures FailuresInARow([l]) == (if l.Failure? then 1 else 0)
    ensures Successes([l]) == (if l.Success? then 1 else 0) && CallsIn([l]) == (if l.Call? then 1 else 0)
  {
    TraceSnoc([], l);
    assert [] + [l] == [l];
  }

  lemma {:induction false} MatchesReturn(cfg: Config, s: State, l: Label, sp: Spell)
    requires cfg.Valid() && Enabled(s, l) && Matches(cfg, s, sp) && (l.Success? || l.Failure?)
    ensures Matches(cfg, Apply(cfg, s, l), Follow(cfg, sp, l))
  {
    TraceSnoc(sp.trace, l);
  }

  lemma {:induction false} MatchesCall(cfg: Config, s: State, l: Label, sp: Spell)
    requires cfg.Valid() && Enabled(s, l) && Matches(cfg, s, sp) && (l.Call? || l.ReadState?)
    ensures Matches(cfg, Apply(cfg, s, l), Follow(cfg, sp, l))
  {
    TraceSnoc(sp.trace, l);
    Singles(l);
  }

  lemma {:induction false} MatchesStep(cfg: Config, s: State, l: Label, sp: Spell)
    requires cfg.Valid() && Enabled(s, l) && Matches(cfg, s, sp)
    ensures Matches(cfg, Apply(cfg, s, l), Follow(cfg, sp, l))
  {
    if l.Success? || l.Failure? {
      MatchesReturn(cfg, s, l, sp);
    } else if l.Call? || l.ReadState? {
      MatchesCall(cfg, s, l, sp);
    }
  }

  lemma {:induction false} MatchesRun(cfg: Config, s: State, labels: seq<Label>, t: State, sp: Spell)
    requires cfg.Valid() && Run(cfg, s, labels, t) && Matches(cfg, s, sp)
    ensures Matches(cfg, t, FollowAll(cfg, sp, labels))
    decreases |labels|
  {
    if labels != [] {
      MatchesStep(cfg, s, labels[0], sp);
      MatchesRun(cfg, Apply(cfg, s, labels[0]), labels[1..], t, Follow(cfg, sp, labels[0]));
    }
  }

  /** In every run the mode of the breaker is the one its trace gives, and the next call starts exactly if
      the trace lets it through. */
  lemma {:induction false} TraceDecides(cfg: Config, from: real, labels: seq<Label>, t: State, at: real)
    requires cfg.Valid() && Run(cfg, Init(from), labels, t) && at >= t.now
    ensures var sp := FollowAll(cfg, Spell(Closed, [], 0.0), labels);
            t.mode == sp.mode && Decided(cfg, t, sp, at)
  {
    var sp := FollowAll(cfg, Spell(Closed, [], 0.0), labels);
    MatchesRun(cfg, Init(from), labels, t, Spell(Closed, [], 0.0));
    CallDecided(cfg, t, sp, at);
  }

  /** The call starts, and is not counted as rejected, exactly if the trace lets it through. */
  predicate Decided(cfg: Config, t: State, sp: Spell, at: real)
    requires at >= t.now
  {
    var u := Apply(cfg, t, Call(at));
    if LetsThrough(cfg, sp, at) then |u.flights| == |t.flights| + 1 && u.rejected == t.rejected
    else |u.flights| == |t.flights| && u.rejected == t.rejected + 1
  }

  lemma {:induction false} DecidedOpen(cfg: Config, t: State, sp: Spell, at: real)
    requires cfg.Valid() && Matches(cfg, t, sp) && at >= t.now && sp.mode.Open?
    ensures Decided(cfg, t, sp, at)
  {
    Singles(Call(at));
  }

  lemma {:induction false} DecidedOtherwise(cfg: Config, t: State, sp: Spell, at: real)
    requires cfg.Valid() && Matches(cfg, t, sp) && at >= t.now && !sp.mode.Open?
    ensures Decided(cfg, t, sp, at)
  {
    TraceSnoc(sp.trace, Call(at));
  }

  lemma {:induction false} CallDecided(cfg: Config, t: State, sp: Spell, at: real)
    requires cfg.Valid() && Matches(cfg, t, sp) && at >= t.now
    ensures Decided(cfg, t, sp, at)
  {
    if sp.mode.Open? {
      DecidedOpen(cfg, t, sp, at);
    } else {
      DecidedOtherwise(cfg, t, sp, at);
    }
  }

  // ------------------------------------------------------------------
  // One closed spell, one half-open spell
  // ------------------------------------------------------------------

  /** The closed spell begins in `e`: it is the first state, or the last step closed the circuit. */
  ghost predicate JustClosed(cfg: Config, e: State) {
    e.mode.Closed? &&
    ((exists at :: e == Init(at))
     || exists s, l :: Reachable(cfg, s) && Enabled(s, l) && e == Apply(cfg, s, l) && (l.Reset? || !s.mode.Closed?))
  }

  lemma {:induction false} JustClosedMatches(cfg: Config, e: State)
    requires cfg.Valid() && JustClosed(cfg, e)
    ensures Matches(cfg, e, Spell(Closed, [], e.openedAt))
  {
  }

  /** While the spell lasts (no transition has happened) its trace is the labels of the run. */
  lemma {:induction false} SpellLasts(cfg: Config, s: State, labels: seq<Label>, t: State, sp: Spell)
    requires cfg.Valid() && Run(cfg, s, labels, t) && Matches(cfg, s, sp) && t.period == s.period
    ensures t.mode == s.mode && Matches(cfg, t, sp.(trace := sp.trace + labels))
    decreases |labels|
  {
    if labels == [] {
      assert sp.trace + labels == sp.trace;
    } else {
      var next := Apply(cfg, s, labels[0]);
      PeriodGrows(cfg, next, labels[1..], t);
      SpellGoesOn(cfg, s, labels[0], sp);
      SpellLasts(cfg, next, labels[1..], t, sp.(trace := sp.trace + [labels[0]]));
      assert sp.trace + [labels[0]] + labels[1..] == sp.trace + labels;
    }
  }

  lemma {:induction false} SpellGoesOn(cfg: Config, s: State, l: Label, sp: Spell)
    requires cfg.Valid() && Enabled(s, l) && Matches(cfg, s, sp) && Apply(cfg, s, l).period <= s.period
    ensures Apply(cfg, s, l).period == s.period && Apply(cfg, s, l).mode == s.mode
    ensures Matches(cfg, Apply(cfg, s, l), sp.(trace := sp.trace + [l]))
  {
    SameSpell(cfg, s, l, sp);
    MatchesStep(cfg, s, l, sp);
  }

  lemma {:induction false} SameSpell(cfg: Config, s: State, l: Label, sp: Spell)
    requires cfg.Valid() && Enabled(s, l) && Matches(cfg, s, sp) && Apply(cfg, s, l).period == s.period
    ensures Follow(cfg, sp, l) == sp.(trace := sp.trace + [l])
  {
    TraceSnoc(sp.trace, l);
  }

  /** A closed circuit opens exactly with the `failure_threshold`-th failure in a row of its spell, and with
      nothing else. */
  lemma {:induction false} OpensExactly(cfg: Config, e: State, labels: seq<Label>, t: State, l: Label)
    requires cfg.Valid() && JustClosed(cfg, e) && Run(cfg, e, labels, t) && t.period == e.period && Enabled(t, l)
    ensures t.mode.Closed?
    ensures Apply(cfg, t, l).mode.Open? <==> l.Failure? && FailuresInARow(labels + [l]) == cfg.failureThreshold
    ensures !Apply(cfg, t, l).mode.Open? ==> Apply(cfg, t, l).mode.Closed?
    ensures Apply(cfg, t, l).mode.Open? ==> Apply(cfg, t, l).openedAt == l.at
    ensures l.Call? ==> |Apply(cfg, t, l).flights| == |t.flights| + 1
  {
    JustClosedMatches(cfg, e);
    SpellLasts(cfg, e, labels, t, Spell(Closed, [], e.openedAt));
    assert [] + labels == labels;
    TraceSnoc(labels, l);
    Bounded(cfg, e, labels, t);
  }

  lemma {:induction false} Bounded(cfg: Config, e: State, labels: seq<Label>, t: State)
    requires cfg.Valid() && JustClosed(cfg, e) && Run(cfg, e, labels, t)
    ensures t.mode.Closed? ==> t.failures < cfg.failureThreshold
  {
    if at :| e == Init(at) {
    } else {
      var s, l :| Reachable(cfg, s) && Enabled(s, l) && e == Apply(cfg, s, l) && (l.Reset? || !s.mode.Closed?);
      InvReachable(cfg, s);
      InvStep(cfg, s, l);
    }
    InvRun(cfg, e, labels, t);
  }

  /** A probing circuit closes exactly with the `success_threshold`-th success since the probing began, opens
      exactly with the first failure, and lets exactly `half_open_max_calls` calls through. */
  lemma {:induction false} ProbesDecide(cfg: Config, o: State, first: Label, labels: seq<Label>, t: State, l: Label)
    requires cfg.Valid() && Reachable(cfg, o) && o.mode.Open? && Enabled(o, first) && Apply(cfg, o, first).mode.HalfOpen?
    requires Run(cfg, Apply(cfg, o, first), labels, t) && t.period == Apply(cfg, o, first).period && Enabled(t, l)
    ensures t.mode.HalfOpen?
    ensures Apply(cfg, t, l).mode.Open? <==> l.Failure?
    ensures Apply(cfg, t, l).mode.Closed? <==>
            l.Reset? || (l.Success? && Successes(labels + [l]) == cfg.successThreshold)
    ensures l.Call? ==>
            (|Apply(cfg, t, l).flights| == |t.flights| + 1 <==> CallsIn([first] + labels) < cfg.halfOpenMax)
  {
    var h := Apply(cfg, o, first);
    Singles(first);
    SpellLasts(cfg, h, labels, t, Spell(HalfOpen, [first], o.openedAt));
    TraceSnoc([first] + labels, l);
    TraceSnoc(labels, l);
    FirstIsNoSuccess(first, labels);
    InvReachable(cfg, o);
    InvStep(cfg, o, first);
    InvRun(cfg, h, labels, t);
  }

  lemma {:induction false} FirstIsNoSuccess(first: Label, labels: seq<Label>)
    requires !first.Success?
    ensures Successes([first] + labels) == Successes(labels)
    decreases |labels|
  {
    if labels == [] {
      assert [first] + labels == [first];
      Singles(first);
    } else {
      var early, l := labels[..|labels| - 1], labels[|labels| - 1];
      assert [first] + labels == ([first] + early) + [l] && labels == early + [l];
      FirstIsNoSuccess(first, early);
      TraceSnoc([first] + early, l);
      TraceSnoc(early, l);
    }
  }

  // ------------------------------------------------------------------
  // The totals
  // ------------------------------------------------------------------

  /** How many labels of the run are calls, successes and failures. */
  function Tally(labels: seq<Label>): (nat, nat, nat)
    decreases |labels|
  {
    if labels == [] then (0, 0, 0)
    else
      var (c, s, f) := Tally(labels[1..]);
      (if labels[0].Call? then c + 1 else c, if labels[0].Success? then s + 1 else s, if labels[0].Failure? then f + 1 else f)
  }

  /** The metrics count every call, every success and every failure of the run once. */
  lemma {:induction false} TotalsCount(cfg: Config, s: State, labels: seq<Label>, t: State)
    requires Run(cfg, s, labels, t)
    ensures var (calls, good, bad) := Tally(labels);
            t.total == s.total + calls && t.succeeded == s.succeeded + good && t.failed == s.failed + bad
    decreases |labels|
  {
    if labels != [] {
      TotalsCount(cfg, Apply(cfg, s, labels[0]), labels[1..], t);
    }
  }
}
