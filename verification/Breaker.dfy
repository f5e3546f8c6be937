/** The circuit breaker: three states, and results that arrive after later transitions because the
    guarded function runs outside the lock. */
module Breaker {

  datatype Mode = Closed | Open | HalfOpen

  datatype Config = Config(failureThreshold: nat, recoveryTimeout: real, halfOpenMax: nat, successThreshold: nat) {
    predicate Valid() { failureThreshold >= 1 && successThreshold >= 1 }
  }

  /** A started call: the period (counted by transitions) it started in, and whether it has returned. */
  datatype Flight = Flight(period: nat, returned: bool)

  datatype State = State(
    mode: Mode,
    failures: nat,
    successes: nat,
    probes: nat,               // `_half_open_calls`
    openedAt: real,
    now: real,
    period: nat,               // transitions so far
    flights: seq<Flight>,
    total: nat, succeeded: nat, failed: nat, rejected: nat)

  datatype Label =
    | Call(at: real)
    | Success(i: nat, at: real)
    | Failure(i: nat, at: real)
    | ReadState(at: real)
    | Reset(at: real)

  predicate Enabled(s: State, l: Label) {
    && l.at >= s.now
    && (l.Success? || l.Failure? ==> l.i < |s.flights| && !s.flights[l.i].returned)
  }

  function Init(at: real): State {
    State(Closed, 0, 0, 0, 0.0, at, 0, [], 0, 0, 0, 0)
  }

  // ------------------------------------------------------------------
  // Steps
  // ------------------------------------------------------------------

  /** `_transition_to`. */
  function Enter(s: State, mode: Mode): State {
    match mode
    case Open => s.(mode := Open, openedAt := s.now, successes := 0, probes := 0, period := s.period + 1)
    case HalfOpen => s.(mode := HalfOpen, successes := 0, probes := 0, period := s.period + 1)
    case Closed => s.(mode := Closed, failures := 0, successes := 0, probes := 0, period := s.period + 1)
  }

  /** An open breaker whose timeout has passed starts probing. */
  function Refresh(cfg: Config, s: State): State {
    if s.mode.Open? && s.now - s.openedAt >= cfg.recoveryTimeout then Enter(s, HalfOpen) else s
  }

  predicate Rejects(cfg: Config, s: State) {
    s.mode.Open? || (s.mode.HalfOpen? && s.probes >= cfg.halfOpenMax)
  }

  function BeginCall(cfg: Config, s: State): State {
    var r := Refresh(cfg, s.(total := s.total + 1));
    if Rejects(cfg, r) then r.(rejected := r.rejected + 1)
    else r.(probes := if r.mode.HalfOpen? then r.probes + 1 else r.probes,
            flights := r.flights + [Flight(r.period, false)])
  }

  function Return(s: State, i: nat): State
    requires i < |s.flights|
  {
    s.(flights := s.flights[i := s.flights[i].(returned := true)])
  }

  function OnSuccess(cfg: Config, s: State): State {
    var r := s.(succeeded := s.succeeded + 1);
    if s.mode.HalfOpen? then
      var r' := r.(successes := s.successes + 1);
      if r'.successes >= cfg.successThreshold then Enter(r', Closed) else r'
    else r.(failures := 0)
  }

  function OnFailure(cfg: Config, s: State): State {
    var r := s.(failed := s.failed + 1, failures := s.failures + 1);
    if s.mode.HalfOpen? || (s.mode.Closed? && r.failures >= cfg.failureThreshold) then Enter(r, Open) else r
  }

  function Apply(cfg: Config, s: State, l: Label): State
    requires Enabled(s, l)
  {
    var t := s.(now := l.at);
    match l
    case Call(_) => BeginCall(cfg, t)
    case Success(i, _) => OnSuccess(cfg, Return(t, i))
    case Failure(i, _) => OnFailure(cfg, Return(t, i))
    case ReadState(_) => Refresh(cfg, t)
    case Reset(_) => Enter(t, Closed)
  }

  predicate Run(cfg: Config, s: State, labels: seq<Label>, t: State)
    decreases |labels|
  {
    if labels == [] then s == t
    else Enabled(s, labels[0]) && Run(cfg, Apply(cfg, s, labels[0]), labels[1..], t)
  }

  ghost predicate Reachable(cfg: Config, s: State) {
    exists at, labels :: Run(cfg, Init(at), labels, s)
  }

  // ------------------------------------------------------------------
  // Counting flights
  // ------------------------------------------------------------------

  function StartedIn(fs: seq<Flight>, period: nat): nat {
    if fs == [] then 0 else (if fs[0].period == period then 1 else 0) + StartedIn(fs[1..], period)
  }

  function ReturnedIn(fs: seq<Flight>, period: nat): nat {
    if fs == [] then 0
    else (if fs[0].period == period && fs[0].returned then 1 else 0) + ReturnedIn(fs[1..], period)
  }

  function InFlight(fs: seq<Flight>): nat {
    if fs == [] then 0 else (if fs[0].returned then 0 else 1) + InFlight(fs[1..])
  }

  lemma {:induction false} CountSnoc(fs: seq<Flight>, f: Flight, period: nat)
    ensures StartedIn(fs + [f], period) == StartedIn(fs, period) + if f.period == period then 1 else 0
    ensures ReturnedIn(fs + [f], period) == ReturnedIn(fs, period) + if f.period == period && f.returned then 1 else 0
    ensures InFlight(fs + [f]) == InFlight(fs) + if f.returned then 0 else 1
  {
    if fs == [] {
      assert fs + [f] == [f];
    } else {
      assert (fs + [f])[1..] == fs[1..] + [f];
      CountSnoc(fs[1..], f, period);
    }
  }

  lemma {:induction false} CountReturn(fs: seq<Flight>, i: nat, period: nat)
    requires i < |fs| && !fs[i].returned
    ensures var gs := fs[i := fs[i].(returned := true)];
            && StartedIn(gs, period) == StartedIn(fs, period)
            && ReturnedIn(gs, period) == ReturnedIn(fs, period) + (if fs[i].period == period then 1 else 0)
            && InFlight(gs) == InFlight(fs) - 1
    decreases i
  {
    var gs := fs[i := fs[i].(returned := true)];
    if i == 0 {
      assert gs[1..] == fs[1..];
    } else {
      assert gs[1..] == fs[1..][i - 1 := fs[1..][i - 1].(returned := true)];
      CountReturn(fs[1..], i - 1, period);
    }
  }

  lemma {:induction false} NoneStarted(fs: seq<Flight>, period: nat)
    requires forall i :: 0 <= i < |fs| ==> fs[i].period < period
    ensures StartedIn(fs, period) == 0 && ReturnedIn(fs, period) == 0
  {
    if fs != [] {
      NoneStarted(fs[1..], period);
    }
  }

  lemma {:induction false} ReturnedAll(fs: seq<Flight>, period: nat)
    requires forall i :: 0 <= i < |fs| && fs[i].period == period ==> fs[i].returned
    ensures ReturnedIn(fs, period) == StartedIn(fs, period)
  {
    if fs != [] {
      ReturnedAll(fs[1..], period);
    }
  }

  // ------------------------------------------------------------------
  // The invariant
  // ------------------------------------------------------------------

  predicate Inv(cfg: Config, s: State) {
    && (s.mode.Closed? ==> s.failures < cfg.failureThreshold)
    && (forall i :: 0 <= i < |s.flights| ==> s.flights[i].period <= s.period)
    && (s.mode.Open? ==> StartedIn(s.flights, s.period) == 0)
    && (s.mode.HalfOpen? ==>
          && s.probes == StartedIn(s.flights, s.period) <= cfg.halfOpenMax
          && s.successes < cfg.successThreshold
          && ReturnedIn(s.flights, s.period) <= s.successes)
    && s.total == s.rejected + s.succeeded + s.failed + InFlight(s.flights)
  }

  lemma {:induction false} InvEnter(cfg: Config, s: State, mode: Mode)
    requires cfg.Valid() && (forall i :: 0 <= i < |s.flights| ==> s.flights[i].period <= s.period)
    requires s.total == s.rejected + s.succeeded + s.failed + InFlight(s.flights)
    ensures Inv(cfg, Enter(s, mode))
  {
    NoneStarted(s.flights, s.period + 1);
  }

  lemma {:induction false} InvCall(cfg: Config, s: State)
    requires cfg.Valid() && Inv(cfg, s)
    ensures Inv(cfg, BeginCall(cfg, s))
  {
    var r := Refresh(cfg, s);
    if r != s {
      InvEnter(cfg, s, HalfOpen);
    }
    CountSnoc(r.flights, Flight(r.period, false), r.period);
  }

  lemma {:induction false} InvReturn(cfg: Config, s: State, l: Label)
    requires cfg.Valid() && Inv(cfg, s) && Enabled(s, l) && (l.Success? || l.Failure?)
    ensures Inv(cfg, Apply(cfg, s, l))
  {
    var t := Return(s.(now := l.at), l.i);
    CountReturn(s.flights, l.i, s.period);
    if l.Success? {
      if s.mode.HalfOpen? && s.successes + 1 >= cfg.successThreshold {
        InvEnter(cfg, t.(succeeded := s.succeeded + 1, successes := s.successes + 1), Closed);
      }
    } else if s.mode.HalfOpen? || (s.mode.Closed? && s.failures + 1 >= cfg.failureThreshold) {
      InvEnter(cfg, t.(failed := s.failed + 1, failures := s.failures + 1), Open);
    }
  }

  lemma {:induction false} InvStep(cfg: Config, s: State, l: Label)
    requires cfg.Valid() && Inv(cfg, s) && Enabled(s, l)
    ensures Inv(cfg, Apply(cfg, s, l))
  {
    var t := s.(now := l.at);
    match l
    case Call(_) => InvCall(cfg, t);
    case Success(_, _) => InvReturn(cfg, s, l);
    case Failure(_, _) => InvReturn(cfg, s, l);
    case ReadState(_) =>
      if Refresh(cfg, t) != t {
        InvEnter(cfg, t, HalfOpen);
      }
    case Reset(_) => InvEnter(cfg, t, Closed);
  }

  lemma {:induction false} InvRun(cfg: Config, s: State, labels: seq<Label>, t: State)
    requires cfg.Valid() && Inv(cfg, s) && Run(cfg, s, labels, t)
    ensures Inv(cfg, t)
    decreases |labels|
  {
    if labels != [] {
      InvStep(cfg, s, labels[0]);
      InvRun(cfg, Apply(cfg, s, labels[0]), labels[1..], t);
    }
  }

  lemma {:induction false} InvReachable(cfg: Config, s: State)
    requires cfg.Valid() && Reachable(cfg, s)
    ensures Inv(cfg, s)
  {
    var at, labels :| Run(cfg, Init(at), labels, s);
    InvRun(cfg, Init(at), labels, s);
  }

  // ------------------------------------------------------------------
  // Promises
  // ------------------------------------------------------------------

  /** Over all interleavings with delayed results: a closed breaker is below its failure threshold,
      and every call is rejected, succeeded, failed or still running. */
  lemma {:induction false} Accounting(cfg: Config, s: State)
    requires cfg.Valid() && Reachable(cfg, s)
    ensures s.mode.Closed? ==> s.failures < cfg.failureThreshold
    ensures s.total == s.rejected + s.succeeded + s.failed + InFlight(s.flights)
  {
    InvReachable(cfg, s);
  }

  function Calls(labels: seq<Label>): nat {
    if labels == [] then 0 else (if labels[0].Call? then 1 else 0) + Calls(labels[1..])
  }

  /** No reset, and nothing as late as the deadline. */
  predicate Until(labels: seq<Label>, deadline: real) {
    forall i :: 0 <= i < |labels| ==> !labels[i].Reset? && labels[i].at < deadline
  }

  /** An open breaker fails fast: whatever late successes, failures and state reads arrive, until
      `recovery_timeout` has passed since it opened it stays open, starts nothing, and rejects every
      call. The first call after such a run starts exactly when the timeout has passed and probes are
      allowed at all. */
  lemma {:induction false} OpenFailsFast(cfg: Config, s: State, labels: seq<Label>, t: State, at: real)
    requires cfg.Valid() && s.mode.Open? && Run(cfg, s, labels, t)
    requires Until(labels, s.openedAt + cfg.recoveryTimeout) && at >= t.now
    ensures t.mode.Open? && t.openedAt == s.openedAt && t.period == s.period
    ensures |t.flights| == |s.flights| && t.rejected == s.rejected + Calls(labels)
    ensures |Apply(cfg, t, Call(at)).flights| > |t.flights| <==>
            at >= s.openedAt + cfg.recoveryTimeout && cfg.halfOpenMax > 0
    decreases |labels|
  {
    if labels != [] {
      OpenStep(cfg, s, labels[0]);
      OpenFailsFast(cfg, Apply(cfg, s, labels[0]), labels[1..], t, at);
    }
  }

  lemma {:induction false} OpenStep(cfg: Config, s: State, l: Label)
    requires s.mode.Open? && Enabled(s, l) && !l.Reset? && l.at < s.openedAt + cfg.recoveryTimeout
    ensures var t := Apply(cfg, s, l);
            && t.mode.Open? && t.openedAt == s.openedAt && t.period == s.period
            && |t.flights| == |s.flights| && t.rejected == s.rejected + if l.Call? then 1 else 0
  {
  }

  /** What is started in a half-open period, for as long as the run goes on. */
  lemma {:induction false} ProbesBounded(cfg: Config, s: State, labels: seq<Label>, t: State)
    requires cfg.Valid() && Reachable(cfg, s) && s.mode.HalfOpen? && Run(cfg, s, labels, t)
    ensures StartedIn(t.flights, s.period) <= cfg.halfOpenMax
  {
    InvReachable(cfg, s);
    ProbesRun(cfg, s, labels, t, s.period);
  }

  predicate PeriodOk(cfg: Config, s: State, period: nat) {
    && Inv(cfg, s)
    && period <= s.period
    && (period == s.period ==> s.mode.HalfOpen?)
    && StartedIn(s.flights, period) <= cfg.halfOpenMax
  }

  lemma {:induction false} ProbesStep(cfg: Config, s: State, l: Label, period: nat)
    requires cfg.Valid() && PeriodOk(cfg, s, period) && Enabled(s, l)
    ensures PeriodOk(cfg, Apply(cfg, s, l), period)
  {
    InvStep(cfg, s, l);
    if l.Call? {
      var r := Refresh(cfg, s.(now := l.at));
      CountSnoc(r.flights, Flight(r.period, false), period);
    } else if l.Success? || l.Failure? {
      CountReturn(s.flights, l.i, period);
    }
  }

  lemma {:induction false} ProbesRun(cfg: Config, s: State, labels: seq<Label>, t: State, period: nat)
    requires cfg.Valid() && PeriodOk(cfg, s, period) && Run(cfg, s, labels, t)
    ensures PeriodOk(cfg, t, period)
    decreases |labels|
  {
    if labels != [] {
      ProbesStep(cfg, s, labels[0], period);
      ProbesRun(cfg, Apply(cfg, s, labels[0]), labels[1..], t, period);
    }
  }

  // ------------------------------------------------------------------
  // Stuck half-open
  // ------------------------------------------------------------------

  /** Half-open, at the probe limit, and nothing left that could return. */
  predicate Stuck(cfg: Config, s: State) {
    s.mode.HalfOpen? && s.probes >= cfg.halfOpenMax && InFlight(s.flights) == 0
  }

  lemma {:induction false} NoneInFlight(fs: seq<Flight>)
    requires InFlight(fs) == 0
    ensures forall i :: 0 <= i < |fs| ==> fs[i].returned
  {
    if fs != [] {
      NoneInFlight(fs[1..]);
    }
  }

  /** Every half-open breaker whose probes have all returned still has room for a probe, provided
      `success_threshold <= half_open_max_calls`. */
  lemma {:induction false} ProbesLeaveRoom(cfg: Config, s: State)
    requires cfg.Valid() && Reachable(cfg, s) && s.mode.HalfOpen?
    requires cfg.successThreshold <= cfg.halfOpenMax
    requires forall i :: 0 <= i < |s.flights| && s.flights[i].period == s.period ==> s.flights[i].returned
    ensures s.probes < cfg.halfOpenMax
  {
    InvReachable(cfg, s);
    ReturnedAll(s.flights, s.period);
  }

  lemma {:induction false} StuckStep(cfg: Config, s: State, l: Label)
    requires Stuck(cfg, s) && Enabled(s, l) && !l.Reset?
    ensures Stuck(cfg, Apply(cfg, s, l)) && |Apply(cfg, s, l).flights| == |s.flights|
  {
    NoneInFlight(s.flights);
  }

  /** A stuck breaker rejects every call until someone resets it by hand. */
  lemma {:induction false} StuckForever(cfg: Config, s: State, labels: seq<Label>, t: State)
    requires Stuck(cfg, s) && Run(cfg, s, labels, t) && forall i :: 0 <= i < |labels| ==> !labels[i].Reset?
    ensures Stuck(cfg, t) && |t.flights| == |s.flights|
    decreases |labels|
  {
    if labels != [] {
      StuckStep(cfg, s, labels[0]);
      StuckForever(cfg, Apply(cfg, s, labels[0]), labels[1..], t);
    }
  }

  /** A state some run leads to; `Leads` composes. */
  ghost predicate Leads(cfg: Config, s: State, t: State) {
    exists labels :: Run(cfg, s, labels, t)
  }

  lemma {:induction false} LeadsStep(cfg: Config, s: State, l: Label, t: State)
    requires Enabled(s, l) && Leads(cfg, Apply(cfg, s, l), t)
    ensures Leads(cfg, s, t)
  {
    var rest :| Run(cfg, Apply(cfg, s, l), rest, t);
    assert ([l] + rest)[1..] == rest;
    assert Run(cfg, s, [l] + rest, t);
  }

  lemma {:induction false} LeadsSelf(cfg: Config, s: State)
    ensures Leads(cfg, s, s)
  {
    assert Run(cfg, s, [], s);
  }

  /** From a closed breaker, failing calls lead to an open one; calls already running are left alone. */
  lemma {:induction false} FailUntilOpen(cfg: Config, s: State) returns (t: State)
    requires cfg.Valid() && s.mode.Closed? && s.failures < cfg.failureThreshold
    ensures Leads(cfg, s, t) && t.mode.Open? && InFlight(t.flights) == InFlight(s.flights) && s.flights <= t.flights
    decreases cfg.failureThreshold - s.failures
  {
    var s1 := Apply(cfg, s, Call(s.now));
    assert s1.flights == s.flights + [Flight(s.period, false)];
    CountSnoc(s.flights, Flight(s.period, false), 0);
    var i := |s.flights|;
    CountReturn(s1.flights, i, 0);
    var s2 := Apply(cfg, s1, Failure(i, s.now));
    if s2.mode.Open? {
      t := s2;
      LeadsSelf(cfg, t);
    } else {
      t := FailUntilOpen(cfg, s2);
    }
    LeadsStep(cfg, s1, Failure(i, s.now), t);
    LeadsStep(cfg, s, Call(s.now), t);
  }

  /** Successful probes fill a half-open breaker up to its limit without closing it. */
  lemma {:induction false} ProbeUntilStuck(cfg: Config, s: State) returns (t: State)
    requires cfg.Valid() && cfg.successThreshold > cfg.halfOpenMax
    requires s.mode.HalfOpen? && s.successes == s.probes <= cfg.halfOpenMax && InFlight(s.flights) == 0
    ensures Leads(cfg, s, t) && Stuck(cfg, t)
    decreases cfg.halfOpenMax - s.probes
  {
    if s.probes == cfg.halfOpenMax {
      t := s;
      LeadsSelf(cfg, t);
    } else {
      var s1 := Apply(cfg, s, Call(s.now));
      var i := |s.flights|;
      assert s1.flights == s.flights + [Flight(s.period, false)];
      CountSnoc(s.flights, Flight(s.period, false), 0);
      CountReturn(s1.flights, i, 0);
      var s2 := Apply(cfg, s1, Success(i, s.now));
      t := ProbeUntilStuck(cfg, s2);
      LeadsStep(cfg, s1, Success(i, s.now), t);
      LeadsStep(cfg, s, Call(s.now), t);
    }
  }

  lemma {:induction false} LeadsTrans(cfg: Config, s: State, labels: seq<Label>, t: State, u: State)
    requires Run(cfg, s, labels, t) && Leads(cfg, t, u)
    ensures Leads(cfg, s, u)
    decreases |labels|
  {
    if labels != [] {
      LeadsTrans(cfg, Apply(cfg, s, labels[0]), labels[1..], t, u);
      LeadsStep(cfg, s, labels[0], u);
    }
  }

  lemma {:induction false} ReachStuck(cfg: Config) returns (u: State)
    requires cfg.Valid() && cfg.successThreshold > cfg.halfOpenMax
    ensures Reachable(cfg, u) && Stuck(cfg, u)
  {
    var s := Init(0.0);
    var t := FailUntilOpen(cfg, s);
    var at := if t.openedAt + cfg.recoveryTimeout >= t.now then t.openedAt + cfg.recoveryTimeout else t.now;
    var r := Apply(cfg, t, ReadState(at));
    u := ProbeUntilStuck(cfg, r);
    LeadsStep(cfg, t, ReadState(at), u);
    var labels :| Run(cfg, s, labels, t);
    LeadsTrans(cfg, s, labels, t, u);
    var all :| Run(cfg, s, all, u);
    assert Run(cfg, Init(0.0), all, u);
  }

  /** The breaker can get stuck half-open if and only if it demands more successes than it admits
      probes; the constructor accepts such settings. */
  lemma {:induction false} StuckExactly(cfg: Config)
    requires cfg.Valid()
    ensures (exists s :: Reachable(cfg, s) && Stuck(cfg, s)) <==> cfg.successThreshold > cfg.halfOpenMax
  {
    if cfg.successThreshold > cfg.halfOpenMax {
      var u := ReachStuck(cfg);
    } else {
      forall s | Reachable(cfg, s) && Stuck(cfg, s) ensures false {
        NoneInFlight(s.flights);
        ProbesLeaveRoom(cfg, s);
      }
    }
  }

  // ------------------------------------------------------------------
  // Successes from before the circuit opened
  // ------------------------------------------------------------------

  /** Some success that is counted in half-open period `period` comes from a call of an earlier one. */
  predicate StaleCounts(cfg: Config, s: State, labels: seq<Label>, period: nat)
    decreases |labels|
  {
    && labels != [] && Enabled(s, labels[0])
    && (|| (labels[0].Success? && s.period == period && s.flights[labels[0].i].period < period)
        || StaleCounts(cfg, Apply(cfg, s, labels[0]), labels[1..], period))
  }

  /** No call of an earlier period is still running. */
  predicate NoStragglers(s: State, period: nat) {
    forall i :: 0 <= i < |s.flights| && s.flights[i].period < period ==> s.flights[i].returned
  }

  lemma {:induction false} NoStragglersStep(cfg: Config, s: State, l: Label, period: nat)
    requires Enabled(s, l) && NoStragglers(s, period) && period <= s.period
    ensures NoStragglers(Apply(cfg, s, l), period) && period <= Apply(cfg, s, l).period
  {
  }

  lemma {:induction false} NoStaleRun(cfg: Config, s: State, labels: seq<Label>, t: State, period: nat)
    requires Run(cfg, s, labels, t) && NoStragglers(s, period) && period <= s.period
    ensures !StaleCounts(cfg, s, labels, period)
    decreases |labels|
  {
    if labels != [] {
      NoStragglersStep(cfg, s, labels[0], period);
      NoStaleRun(cfg, Apply(cfg, s, labels[0]), labels[1..], t, period);
    }
  }

  /** In all runs only calls of the current period are counted as its successes. */
  ghost predicate OnlyProbesCount(cfg: Config, s: State) {
    forall labels, t :: Run(cfg, s, labels, t) ==> !StaleCounts(cfg, s, labels, s.period)
  }

  /** From any half-open state, in particular from the one in which the period begins: in all runs
      only this period's own calls are counted as successes of the period, if and only if no call of
      an earlier period is still running. */
  lemma {:induction false} OnlyProbesCountExactly(cfg: Config, s: State)
    requires cfg.Valid() && Reachable(cfg, s) && s.mode.HalfOpen?
    ensures OnlyProbesCount(cfg, s) <==> NoStragglers(s, s.period)
  {
    if NoStragglers(s, s.period) {
      forall labels, t | Run(cfg, s, labels, t) ensures !StaleCounts(cfg, s, labels, s.period) {
        NoStaleRun(cfg, s, labels, t, s.period);
      }
    } else {
      var i :| 0 <= i < |s.flights| && s.flights[i].period < s.period && !s.flights[i].returned;
      var l := Success(i, s.now);
      var labels, t := [l], Apply(cfg, s, l);
      assert labels[1..] == [] && labels[0] == l;
      assert Run(cfg, t, [], t);
      assert Run(cfg, s, labels, t) && StaleCounts(cfg, s, labels, s.period);
    }
  }

  lemma {:induction false} PeriodGrows(cfg: Config, s: State, labels: seq<Label>, t: State)
    requires Run(cfg, s, labels, t)
    ensures s.period <= t.period
    decreases |labels|
  {
    if labels != [] {
      PeriodGrows(cfg, Apply(cfg, s, labels[0]), labels[1..], t);
    }
  }

  lemma {:induction false} ProbesCount(cfg: Config, s: State, l: Label)
    requires Enabled(s, l) && s.mode.HalfOpen? && NoStragglers(s, s.period)
    requires forall i :: 0 <= i < |s.flights| ==> s.flights[i].period <= s.period
    requires s.successes == ReturnedIn(s.flights, s.period) && Apply(cfg, s, l).period == s.period
    ensures var t := Apply(cfg, s, l);
            && t.mode.HalfOpen? && t.successes == ReturnedIn(t.flights, t.period)
            && forall i :: 0 <= i < |t.flights| ==> t.flights[i].period <= t.period
  {
    if l.Call? {
      CountSnoc(s.flights, Flight(s.period, false), s.period);
    } else if l.Success? {
      CountReturn(s.flights, l.i, s.period);
    }
  }

  lemma {:induction false} ProbesCountRun(cfg: Config, s: State, labels: seq<Label>, t: State)
    requires cfg.Valid() && Inv(cfg, s) && s.mode.HalfOpen? && NoStragglers(s, s.period)
    requires s.successes == ReturnedIn(s.flights, s.period) && Run(cfg, s, labels, t) && t.period == s.period
    ensures t.mode.HalfOpen? && t.successes == ReturnedIn(t.flights, t.period)
    decreases |labels|
  {
    if labels != [] {
      var u := Apply(cfg, s, labels[0]);
      InvStep(cfg, s, labels[0]);
      PeriodGrows(cfg, s, labels[..1], u);
      PeriodGrows(cfg, u, labels[1..], t);
      ProbesCount(cfg, s, labels[0]);
      NoStragglersStep(cfg, s, labels[0], s.period);
      ProbesCountRun(cfg, u, labels[1..], t);
    }
  }

  /** If a period begins with no earlier call running, then for as long as it lasts `_success_count`
      is the number of its own calls that have returned. */
  lemma {:induction false} ClosedByProbes(cfg: Config, s: State, labels: seq<Label>, t: State)
    requires cfg.Valid() && Reachable(cfg, s) && s.mode.HalfOpen? && s.successes == 0 && NoStragglers(s, s.period)
    requires Run(cfg, s, labels, t) && t.period == s.period
    ensures t.mode.HalfOpen? && t.successes == ReturnedIn(t.flights, t.period)
  {
    InvReachable(cfg, s);
    ProbesCountRun(cfg, s, labels, t);
  }

  /** `n` calls started in a closed breaker and not returned. */
  lemma {:induction false} StartMany(cfg: Config, s: State, n: nat) returns (t: State)
    requires cfg.Valid() && s.mode.Closed?
    ensures Leads(cfg, s, t) && t.mode.Closed? && t.failures == s.failures && s.flights <= t.flights
    ensures |t.flights| == |s.flights| + n
    ensures forall i :: |s.flights| <= i < |t.flights| ==> !t.flights[i].returned
    decreases n
  {
    if n == 0 {
      t := s;
      LeadsSelf(cfg, s);
    } else {
      var s1 := Apply(cfg, s, Call(s.now));
      assert s1.flights == s.flights + [Flight(s.period, false)];
      t := StartMany(cfg, s1, n - 1);
      LeadsStep(cfg, s, Call(s.now), t);
    }
  }

  /** The flights from `i` on to `n` return successfully, one after the other. */
  lemma {:induction false} SucceedFrom(cfg: Config, s: State, i: nat) returns (labels: seq<Label>, t: State)
    requires cfg.Valid() && s.mode.HalfOpen? && s.successes == i < cfg.successThreshold <= |s.flights|
    requires forall j :: i <= j < cfg.successThreshold ==> !s.flights[j].returned
    ensures Run(cfg, s, labels, t) && |labels| == cfg.successThreshold - i && t.mode.Closed?
    ensures forall j :: 0 <= j < |labels| ==> labels[j].Success?
    ensures StartedIn(t.flights, s.period) == StartedIn(s.flights, s.period)
    decreases cfg.successThreshold - i
  {
    var l := Success(i, s.now);
    var s1 := Apply(cfg, s, l);
    CountReturn(s.flights, i, s.period);
    if i + 1 == cfg.successThreshold {
      labels, t := [l], s1;
      assert [l][1..] == [];
    } else {
      var rest, t' := SucceedFrom(cfg, s1, i + 1);
      labels, t := [l] + rest, t';
      assert labels[1..] == rest;
    }
  }

  lemma {:induction false} LeadsJoin(cfg: Config, s: State, t: State, u: State)
    requires Leads(cfg, s, t) && Leads(cfg, t, u)
    ensures Leads(cfg, s, u)
  {
    var labels :| Run(cfg, s, labels, t);
    LeadsTrans(cfg, s, labels, t, u);
  }

  /** Under every valid configuration a half-open breaker can be reached that closes although not one
      probe has started: calls that started before the circuit opened return late and are counted. */
  lemma {:induction false} StaleSuccessesClose(cfg: Config) returns (h: State, labels: seq<Label>, t: State)
    requires cfg.Valid()
    ensures Reachable(cfg, h) && h.mode.HalfOpen? && h.probes == 0
    ensures Run(cfg, h, labels, t) && |labels| == cfg.successThreshold
    ensures forall j :: 0 <= j < |labels| ==> labels[j].Success?
    ensures t.mode.Closed? && StartedIn(t.flights, h.period) == 0
  {
    var s := Init(0.0);
    var s1 := StartMany(cfg, s, cfg.successThreshold);
    var s2 := FailUntilOpen(cfg, s1);
    LeadsJoin(cfg, s, s1, s2);
    var early :| Run(cfg, Init(0.0), early, s2);
    InvReachable(cfg, s2);
    var at := if s2.openedAt + cfg.recoveryTimeout >= s2.now then s2.openedAt + cfg.recoveryTimeout else s2.now;
    h := Apply(cfg, s2, ReadState(at));
    LeadsSelf(cfg, h);
    LeadsStep(cfg, s2, ReadState(at), h);
    LeadsJoin(cfg, s, s2, h);
    var all :| Run(cfg, Init(0.0), all, h);
    NoneStarted(h.flights, h.period);
    labels, t := SucceedFrom(cfg, h, 0);
  }

  // ------------------------------------------------------------------
  // The object
  // ------------------------------------------------------------------

  class CircuitBreaker {
    const cfg: Config
    var mode: Mode
    var failures: nat
    var successes: nat
    var probes: nat
    var openedAt: real
    var total: nat
    var succeeded: nat
    var failed: nat
    var rejected: nat
    ghost var machine: State

    ghost predicate Valid()
      reads this
    {
      && cfg.Valid() && Inv(cfg, machine)
      && mode == machine.mode && failures == machine.failures && successes == machine.successes
      && probes == machine.probes && openedAt == machine.openedAt
      && total == machine.total && succeeded == machine.succeeded
      && failed == machine.failed && rejected == machine.rejected
    }

    constructor (cfg: Config, ghost at: real)
      requires cfg.Valid()
      ensures Valid() && this.cfg == cfg && machine == Init(at)
    {
      this.cfg := cfg;
      mode, failures, successes, probes, openedAt := Closed, 0, 0, 0, 0.0;
      total, succeeded, failed, rejected := 0, 0, 0, 0;
      machine := Init(at);
    }

    /** `_transition_to`; the caller settles the machine. */
    method TransitionTo(next: Mode, now: real)
      modifies this`mode, this`failures, this`successes, this`probes, this`openedAt
      ensures mode == next && successes == 0 && probes == 0
      ensures failures == if next.Closed? then 0 else old(failures)
      ensures openedAt == if next.Open? then now else old(openedAt)
    {
      mode := next;
      if next.Open? {
        openedAt := now;
        successes, probes := 0, 0;
      } else if next.HalfOpen? {
        probes, successes := 0, 0;
      } else {
        failures, successes, probes := 0, 0, 0;
      }
    }

    /** The locked prologue of `call`: whether the guarded function may run now. */
    method TryStart(now: real) returns (ok: bool)
      requires Valid() && now >= machine.now
      modifies this
      ensures Valid() && machine == Apply(cfg, old(machine), Call(now))
      ensures ok <==> |machine.flights| == |old(machine).flights| + 1
      ensures !ok <==> rejected == old(rejected) + 1
    {
      InvStep(cfg, machine, Call(now));
      machine := Apply(cfg, machine, Call(now));
      total := total + 1;
      if mode.Open? && now - openedAt >= cfg.recoveryTimeout {
        TransitionTo(HalfOpen, now);
      }
      if mode.Open? {
        rejected := rejected + 1;
        return false;
      }
      if mode.HalfOpen? {
        if probes >= cfg.halfOpenMax {
          rejected := rejected + 1;
          return false;
        }
        probes := probes + 1;
      }
      return true;
    }

    method OnSuccess(now: real, ghost i: nat)
      requires Valid() && Enabled(machine, Success(i, now))
      modifies this
      ensures Valid() && machine == Apply(cfg, old(machine), Success(i, now))
    {
      InvStep(cfg, machine, Success(i, now));
      machine := Apply(cfg, machine, Success(i, now));
      succeeded := succeeded + 1;
      if mode.HalfOpen? {
        successes := successes + 1;
        if successes >= cfg.successThreshold {
          TransitionTo(Closed, now);
        }
      } else {
        failures := 0;
      }
    }

    method OnFailure(now: real, ghost i: nat)
      requires Valid() && Enabled(machine, Failure(i, now))
      modifies this
      ensures Valid() && machine == Apply(cfg, old(machine), Failure(i, now))
    {
      InvStep(cfg, machine, Failure(i, now));
      machine := Apply(cfg, machine, Failure(i, now));
      failed := failed + 1;
      failures := failures + 1;
      if mode.HalfOpen? {
        TransitionTo(Open, now);
      } else if mode.Closed? {
        if failures >= cfg.failureThreshold {
          TransitionTo(Open, now);
        }
      }
    }

    /** Reading the state may itself start a half-open period. */
    method ReadMode(now: real) returns (r: Mode)
      requires Valid() && now >= machine.now
      modifies this
      ensures Valid() && machine == Apply(cfg, old(machine), ReadState(now)) && r == mode
    {
      InvStep(cfg, machine, ReadState(now));
      machine := Apply(cfg, machine, ReadState(now));
      if mode.Open? && now - openedAt >= cfg.recoveryTimeout {
        TransitionTo(HalfOpen, now);
      }
      r := mode;
    }
  }
}
