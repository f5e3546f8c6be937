/** The idempotency cache: expiry times by key, forgotten lazily, by periodic cleanup, or by eviction
    when the cache overflows. It is compared with a plain record that never forgets a mark. */
module Dedup {

  type Key = string

  datatype Config = Config(ttl: real, maxSize: int, interval: real)

  /** The optional override of the time to live. */
  datatype Lifetime = Default | Override(seconds: real) {
    function Seconds(cfg: Config): real { if Default? then cfg.ttl else seconds }
  }

  datatype State = State(
    cache: map<Key, real>, clock: real, lastCleanup: real, hits: nat, misses: nat, evictions: nat, overflowed: bool)

  /** A cleanup reads the clock before it takes the lock, so its reading may be old. The keys an
      overflowing mark evicts are part of the step. */
  datatype Label =
    | Tick(now: real)
    | Cleanup(at: real)
    | Check(key: Key)
    | Mark(marked: Key, ttl: real, victims: set<Key>)

  function Init(start: real): State { State(map[], start, start, 0, 0, 0, false) }

  function EvictCount(size: nat): nat { if size / 5 > 1 then size / 5 else 1 }

  /** The victims are the oldest fifth: nothing dropped expires later than anything kept. */
  predicate Oldest(cache: map<Key, real>, victims: set<Key>) {
    && victims <= cache.Keys
    && |victims| == EvictCount(|cache|)
    && forall v, k :: v in victims && k in cache && k !in victims ==> cache[v] <= cache[k]
  }

  function Marked(s: State, l: Label): map<Key, real>
    requires l.Mark?
  {
    s.cache[l.marked := s.clock + l.ttl]
  }

  predicate Overflows(cfg: Config, s: State, l: Label)
    requires l.Mark?
  {
    |Marked(s, l)| > cfg.maxSize
  }

  predicate Enabled(cfg: Config, s: State, l: Label) {
    match l
    case Tick(now) => s.clock <= now
    case Cleanup(at) => at <= s.clock
    case Check(_) => true
    case Mark(_, _, victims) => if Overflows(cfg, s, l) then Oldest(Marked(s, l), victims) else victims == {}
  }

  /** What `is_duplicate` answers under the lock. */
  predicate Duplicate(s: State, key: Key) { key in s.cache && s.clock < s.cache[key] }

  function Expired(cache: map<Key, real>, at: real): set<Key> { set k | k in cache && at >= cache[k] }

  function Apply(cfg: Config, s: State, l: Label): State {
    match l
    case Tick(now) => s.(clock := now)
    case Cleanup(at) =>
      var gone := Expired(s.cache, at);
      s.(cache := s.cache - gone, lastCleanup := at, evictions := s.evictions + |gone|)
    case Check(key) =>
      if Duplicate(s, key) then s.(hits := s.hits + 1)
      else s.(cache := s.cache - {key}, misses := s.misses + 1)
    case Mark(_, _, victims) =>
      s.(cache := Marked(s, l) - victims, evictions := s.evictions + |victims|,
         overflowed := s.overflowed || Overflows(cfg, s, l))
  }

  predicate Run(cfg: Config, s: State, trace: seq<Label>)
    decreases |trace|
  {
    trace == [] || (Enabled(cfg, s, trace[0]) && Run(cfg, Apply(cfg, s, trace[0]), trace[1..]))
  }

  function End(cfg: Config, s: State, trace: seq<Label>): State
    decreases |trace|
  {
    if trace == [] then s else End(cfg, Apply(cfg, s, trace[0]), trace[1..])
  }

  /** The answers given along a run, in order. */
  function Answers(cfg: Config, s: State, trace: seq<Label>): seq<bool>
    decreases |trace|
  {
    if trace == [] then []
    else (if trace[0].Check? then [Duplicate(s, trace[0].key)] else []) + Answers(cfg, Apply(cfg, s, trace[0]), trace[1..])
  }

  // ------------------------------------------------------------------
  // The reference: the last mark of a key plus its time to live
  // ------------------------------------------------------------------

  /** Every mark ever made, and which keys were evicted since their last mark. */
  datatype Record = Record(clock: real, expiry: map<Key, real>, evicted: set<Key>)

  function Note(r: Record, l: Label): Record {
    match l
    case Tick(now) => r.(clock := now)
    case Mark(key, ttl, victims) =>
      r.(expiry := r.expiry[key := r.clock + ttl], evicted := r.evicted - {key} + victims)
    case _ => r
  }

  predicate Recorded(r: Record, key: Key) { key in r.expiry && r.clock < r.expiry[key] }

  function RecordAnswers(r: Record, trace: seq<Label>): seq<bool>
    decreases |trace|
  {
    if trace == [] then []
    else (if trace[0].Check? then [Recorded(r, trace[0].key)] else []) + RecordAnswers(Note(r, trace[0]), trace[1..])
  }

  /** For each check, whether its key was evicted since its last mark. */
  function Evicted(r: Record, trace: seq<Label>): seq<bool>
    decreases |trace|
  {
    if trace == [] then []
    else (if trace[0].Check? then [trace[0].key in r.evicted] else []) + Evicted(Note(r, trace[0]), trace[1..])
  }

  // ------------------------------------------------------------------
  // The cache against the record
  // ------------------------------------------------------------------

  /** What the cache holds is on record; what it lacks has expired or was evicted. */
  predicate Agrees(s: State, r: Record) {
    && s.clock == r.clock
    && (forall k :: k in s.cache ==> k in r.expiry && s.cache[k] == r.expiry[k] && k !in r.evicted)
    && (forall k :: k in r.expiry && k !in s.cache ==> k in r.evicted || r.expiry[k] <= s.clock)
    && (!s.overflowed ==> r.evicted == {})
  }

  lemma {:induction false} HeldAfterMark(cfg: Config, s: State, r: Record, l: Label, k: Key)
    requires Enabled(cfg, s, l) && Agrees(s, r) && l.Mark? && k in Apply(cfg, s, l).cache
    ensures var q := Note(r, l); k in q.expiry && Apply(cfg, s, l).cache[k] == q.expiry[k] && k !in q.evicted
  {
  }

  lemma {:induction false} GoneAfterMark(cfg: Config, s: State, r: Record, l: Label, k: Key)
    requires Enabled(cfg, s, l) && Agrees(s, r) && l.Mark? && k in Note(r, l).expiry && k !in Apply(cfg, s, l).cache
    ensures k in Note(r, l).evicted || Note(r, l).expiry[k] <= s.clock
  {
  }

  lemma {:induction false} AgreesMark(cfg: Config, s: State, r: Record, l: Label)
    requires Enabled(cfg, s, l) && Agrees(s, r) && l.Mark?
    ensures Agrees(Apply(cfg, s, l), Note(r, l))
  {
    var t, q := Apply(cfg, s, l), Note(r, l);
    forall k | k in t.cache ensures k in q.expiry && t.cache[k] == q.expiry[k] && k !in q.evicted {
      HeldAfterMark(cfg, s, r, l, k);
    }
    forall k | k in q.expiry && k !in t.cache ensures k in q.evicted || q.expiry[k] <= t.clock {
      GoneAfterMark(cfg, s, r, l, k);
    }
  }

  lemma {:induction false} AgreesQuiet(cfg: Config, s: State, r: Record, l: Label)
    requires Enabled(cfg, s, l) && Agrees(s, r) && !l.Mark?
    ensures Agrees(Apply(cfg, s, l), Note(r, l))
  {
  }

  lemma {:induction false} AgreesStep(cfg: Config, s: State, r: Record, l: Label)
    requires Enabled(cfg, s, l) && Agrees(s, r)
    ensures Agrees(Apply(cfg, s, l), Note(r, l))
  {
    if l.Mark? {
      AgreesMark(cfg, s, r, l);
    } else {
      AgreesQuiet(cfg, s, r, l);
    }
  }

  lemma {:induction false} OverflowStays(cfg: Config, s: State, trace: seq<Label>)
    requires s.overflowed
    ensures End(cfg, s, trace).overflowed
    decreases |trace|
  {
    if trace != [] {
      OverflowStays(cfg, Apply(cfg, s, trace[0]), trace[1..]);
    }
  }

  /** Answer by answer: a duplicate exactly when the mark has not expired and was not evicted. */
  predicate Exact(given: seq<bool>, truth: seq<bool>, evicted: seq<bool>) {
    |given| == |truth| == |evicted| && forall i :: 0 <= i < |given| ==> given[i] == (truth[i] && !evicted[i])
  }

  predicate NoneOf(flags: seq<bool>) { forall i :: 0 <= i < |flags| ==> !flags[i] }

  lemma {:induction false} ExactJoins(
    a: seq<bool>, b: seq<bool>, c: seq<bool>, a': seq<bool>, b': seq<bool>, c': seq<bool>)
    requires Exact(a, b, c) && Exact(a', b', c')
    ensures Exact(a + a', b + b', c + c')
  {
  }

  lemma {:induction false} CheckAgrees(s: State, r: Record, key: Key)
    requires Agrees(s, r)
    ensures Duplicate(s, key) <==> Recorded(r, key) && key !in r.evicted
  {
  }

  lemma {:induction false} AnswersAgree(cfg: Config, s: State, r: Record, trace: seq<Label>)
    requires Run(cfg, s, trace) && Agrees(s, r)
    ensures Exact(Answers(cfg, s, trace), RecordAnswers(r, trace), Evicted(r, trace))
    ensures !End(cfg, s, trace).overflowed ==> NoneOf(Evicted(r, trace))
    decreases |trace|
  {
    if trace != [] {
      var l, next, noted := trace[0], Apply(cfg, s, trace[0]), Note(r, trace[0]);
      AgreesStep(cfg, s, r, l);
      AnswersAgree(cfg, next, noted, trace[1..]);
      if s.overflowed {
        OverflowStays(cfg, s, trace);
      }
      var given := if l.Check? then [Duplicate(s, l.key)] else [];
      var truth := if l.Check? then [Recorded(r, l.key)] else [];
      var gone := if l.Check? then [l.key in r.evicted] else [];
      if l.Check? {
        CheckAgrees(s, r, l.key);
      }
      ExactJoins(given, truth, gone, Answers(cfg, next, trace[1..]), RecordAnswers(noted, trace[1..]), Evicted(noted, trace[1..]));
    }
  }

  /** In every run, answer by answer: a duplicate is reported if and only if the last mark of the key
      has not expired and the key was not evicted since. Lazy expiry and periodic cleanup therefore
      cannot be observed, and until the cache first overflows the answers are those of a record that
      never forgets. */
  lemma {:induction false} CacheRefinesRecord(cfg: Config, start: real, trace: seq<Label>)
    requires Run(cfg, Init(start), trace)
    ensures var given, r := Answers(cfg, Init(start), trace), Record(start, map[], {});
            && Exact(given, RecordAnswers(r, trace), Evicted(r, trace))
            && (!End(cfg, Init(start), trace).overflowed ==> given == RecordAnswers(r, trace))
  {
    AnswersAgree(cfg, Init(start), Record(start, map[], {}), trace);
  }

  // ------------------------------------------------------------------
  // Size and counters
  // ------------------------------------------------------------------

  function Bound(cfg: Config): nat { if cfg.maxSize < 0 then 0 else cfg.maxSize }

  lemma {:induction false} RemoveKeys(cache: map<Key, real>, gone: set<Key>)
    requires gone <= cache.Keys
    ensures |cache - gone| == |cache| - |gone|
  {
    assert (cache - gone).Keys == cache.Keys - gone;
  }

  lemma {:induction false} SizeStep(cfg: Config, s: State, l: Label)
    requires Enabled(cfg, s, l) && |s.cache| <= Bound(cfg)
    ensures |Apply(cfg, s, l).cache| <= Bound(cfg)
  {
    match l
    case Tick(_) =>
    case Cleanup(at) => RemoveKeys(s.cache, Expired(s.cache, at));
    case Check(key) => RemoveKeys(s.cache, {key} * s.cache.Keys);
      assert s.cache - {key} == s.cache - ({key} * s.cache.Keys);
    case Mark(_, _, _) => MarkSize(cfg, s, l);
  }

  lemma {:induction false} MarkSize(cfg: Config, s: State, l: Label)
    requires l.Mark? && Enabled(cfg, s, l) && |s.cache| <= Bound(cfg)
    ensures |Marked(s, l) - l.victims| <= Bound(cfg)
  {
    GrowsByOne(s.cache, l.marked, s.clock + l.ttl);
    RemoveKeys(Marked(s, l), l.victims);
  }

  lemma {:induction false} GrowsByOne(cache: map<Key, real>, key: Key, expiry: real)
    ensures |cache[key := expiry]| <= |cache| + 1
  {
    assert cache[key := expiry].Keys == cache.Keys + {key};
  }

  function CountTrue(answers: seq<bool>): nat {
    if answers == [] then 0 else (if answers[0] then 1 else 0) + CountTrue(answers[1..])
  }

  lemma {:induction false} SizeRun(cfg: Config, s: State, trace: seq<Label>)
    requires Run(cfg, s, trace) && |s.cache| <= Bound(cfg)
    ensures |End(cfg, s, trace).cache| <= Bound(cfg)
    ensures var answers := Answers(cfg, s, trace);
            && End(cfg, s, trace).hits == s.hits + CountTrue(answers)
            && End(cfg, s, trace).hits + End(cfg, s, trace).misses == s.hits + s.misses + |answers|
    decreases |trace|
  {
    if trace != [] {
      SizeStep(cfg, s, trace[0]);
      SizeRun(cfg, Apply(cfg, s, trace[0]), trace[1..]);
      var rest := Answers(cfg, Apply(cfg, s, trace[0]), trace[1..]);
      if trace[0].Check? {
        assert ([Duplicate(s, trace[0].key)] + rest)[1..] == rest;
      } else {
        assert [] + rest == rest;
      }
    }
  }

  /** In every run the size stays within the limit, hits count the positive answers, and hits and
      misses together count all. */
  lemma {:induction false} SizeAndCounters(cfg: Config, start: real, trace: seq<Label>)
    requires Run(cfg, Init(start), trace)
    ensures var end, answers := End(cfg, Init(start), trace), Answers(cfg, Init(start), trace);
            && |end.cache| <= Bound(cfg)
            && end.hits == CountTrue(answers)
            && end.hits + end.misses == |answers|
  {
    SizeRun(cfg, Init(start), trace);
  }

  /** A mark that outlives every other entry survives the eviction it causes, as long as the cache
      may hold anything at all. */
  lemma {:induction false} NewestSurvives(cfg: Config, s: State, l: Label)
    requires l.Mark? && Enabled(cfg, s, l) && cfg.maxSize >= 1
    requires forall k :: k in s.cache && k != l.marked ==> s.cache[k] < s.clock + l.ttl
    ensures l.marked in Apply(cfg, s, l).cache
  {
    var marked := Marked(s, l);
    if Overflows(cfg, s, l) {
      assert |l.victims| < |marked|;
      RemoveKeys(marked, l.victims);
      assert marked - l.victims != map[];
      var k :| k in marked - l.victims;
      assert marked[k] <= marked[l.marked];
    }
  }

  /** A cleanup removes and counts exactly the entries that have expired by its reading; a check removes its
      own entry exactly if that has expired, and nothing else. */
  lemma {:induction false} ForgetsExactly(cfg: Config, s: State, at: real, key: Key, k: Key)
    ensures var t := Apply(cfg, s, Cleanup(at));
            && (k in t.cache <==> k in s.cache && at < s.cache[k]) && (k in t.cache ==> t.cache[k] == s.cache[k])
            && t.evictions == s.evictions + |s.cache| - |t.cache|
    ensures var t := Apply(cfg, s, Check(key));
            && (k in t.cache <==> k in s.cache && (k == key ==> s.clock < s.cache[k]))
            && (k in t.cache ==> t.cache[k] == s.cache[k])
  {
    RemoveKeys(s.cache, Expired(s.cache, at));
  }

  /** A mark evicts exactly when it makes the cache larger than `max_size`: then a fifth of the entries,
      rounded down but at least one. It records its own expiry unless it is a victim itself, and leaves
      every other entry that is not a victim as it was. */
  lemma {:induction false} EvictsExactly(cfg: Config, s: State, l: Label)
    requires l.Mark? && Enabled(cfg, s, l)
    ensures var keys, after := s.cache.Keys + {l.marked}, Apply(cfg, s, l).cache;
            && (l.victims != {} <==> |keys| > cfg.maxSize)
            && (l.victims != {} ==> if |keys| < 5 then |l.victims| == 1 else 5 * |l.victims| <= |keys| < 5 * |l.victims| + 5)
            && after.Keys == keys - l.victims
            && (l.marked in after ==> after[l.marked] == s.clock + l.ttl)
            && (forall k :: k in after && k != l.marked ==> k in s.cache && after[k] == s.cache[k])
  {
    var marked := Marked(s, l);
    assert marked.Keys == s.cache.Keys + {l.marked};
    SameSize(marked);
    FifthOf(|marked|);
    SomeVictim(l.victims);
  }

  lemma {:induction false} FifthOf(n: nat)
    ensures if n < 5 then EvictCount(n) == 1 else 5 * EvictCount(n) <= n < 5 * EvictCount(n) + 5
  {
  }

  lemma {:induction false} SomeVictim(victims: set<Key>)
    ensures |victims| >= 1 <==> victims != {}
  {
  }

  lemma {:induction false} SameSize(cache: map<Key, real>)
    ensures |cache| == |cache.Keys|
  {
  }

  // ------------------------------------------------------------------
  // The code
  // ------------------------------------------------------------------

  lemma {:induction false} OldestExists(cache: map<Key, real>, among: set<Key>)
    requires among != {} && among <= cache.Keys
    ensures exists k :: k in among && forall other :: other in among ==> cache[k] <= cache[other]
    decreases |among|
  {
    var k :| k in among;
    if among != {k} {
      assert among - {k} != {};
      OldestExists(cache, among - {k});
      var m :| m in among - {k} && forall other :: other in among - {k} ==> cache[m] <= cache[other];
      var least := if cache[k] <= cache[m] then k else m;
      assert least in among && forall other :: other in among ==> cache[least] <= cache[other];
    }
  }

  /** The entries by expiry, oldest first, as the library sort gives them. */
  method OldestFirst(cache: map<Key, real>) returns (order: seq<Key>)
    ensures |order| == |cache|
    ensures forall k :: k in order <==> k in cache
    ensures forall i, j :: 0 <= i < j < |order| ==> order[i] != order[j] && cache[order[i]] <= cache[order[j]]
  {
    order := [];
    var left := cache.Keys;
    while left != {}
      invariant left <= cache.Keys && |order| + |left| == |cache|
      invariant forall k :: k in order <==> k in cache && k !in left
      invariant forall i, j :: 0 <= i < j < |order| ==> order[i] != order[j] && cache[order[i]] <= cache[order[j]]
      invariant forall i, k :: 0 <= i < |order| && k in left ==> cache[order[i]] <= cache[k]
      decreases |left|
    {
      OldestExists(cache, left);
      var k :| k in left && forall other :: other in left ==> cache[k] <= cache[other];
      order := order + [k];
      left := left - {k};
    }
  }

  function Listed(order: seq<Key>): set<Key> { set i | 0 <= i < |order| :: order[i] }

  lemma {:induction false} ListedSize(order: seq<Key>)
    requires forall i, j :: 0 <= i < j < |order| ==> order[i] != order[j]
    ensures |Listed(order)| == |order|
  {
    if order != [] {
      var init := order[..|order| - 1];
      ListedSize(init);
      assert Listed(order) == Listed(init) + {order[|order| - 1]};
    }
  }

  /** Deleting the listed keys one by one. */
  method DeleteKeys(cache: map<Key, real>, order: seq<Key>) returns (rest: map<Key, real>)
    ensures rest == cache - Listed(order)
  {
    rest := cache;
    var i := 0;
    while i < |order|
      invariant 0 <= i <= |order|
      invariant rest == cache - Listed(order[..i])
    {
      rest := rest - {order[i]};
      i := i + 1;
      assert Listed(order[..i]) == Listed(order[..i - 1]) + {order[i - 1]};
    }
    assert order[..i] == order;
  }

  /** The expired keys in some order. */
  method ExpiredKeys(cache: map<Key, real>, now: real) returns (order: seq<Key>)
    ensures Listed(order) == Expired(cache, now)
    ensures forall i, j :: 0 <= i < j < |order| ==> order[i] != order[j]
  {
    order := [];
    var left := cache.Keys;
    while left != {}
      invariant left <= cache.Keys
      invariant forall k :: k in order <==> k in cache && k !in left && now >= cache[k]
      invariant forall i, j :: 0 <= i < j < |order| ==> order[i] != order[j]
      decreases |left|
    {
      var k :| k in left;
      left := left - {k};
      if now >= cache[k] {
        order := order + [k];
      }
    }
  }

  class IdempotencyCache {
    const cfg: Config
    var cache: map<Key, real>
    var lastCleanup: real
    var hits: nat
    var misses: nat
    var evictions: nat
    ghost var clock: real
    ghost var overflowed: bool

    ghost function Snapshot(): State
      reads this
    {
      State(cache, clock, lastCleanup, hits, misses, evictions, overflowed)
    }

    constructor (config: Config, now: real)
      ensures cfg == config && Snapshot() == Init(now)
    {
      cfg := config;
      cache, lastCleanup, hits, misses, evictions := map[], now, 0, 0, 0;
      clock, overflowed := now, false;
    }

    /** Either too early, or one cleanup step. */
    method MaybeCleanup(now: real)
      requires now <= clock
      modifies this
      ensures Snapshot() ==
              if now - old(lastCleanup) < cfg.interval then old(Snapshot()) else Apply(cfg, old(Snapshot()), Cleanup(now))
    {
      if now - lastCleanup < cfg.interval {
        return;
      }
      lastCleanup := now;
      var gone := ExpiredKeys(cache, now);
      ListedSize(gone);
      cache := DeleteKeys(cache, gone);
      evictions := evictions + |gone|;
    }

    /** The part of `is_duplicate` under the lock. */
    method CheckLocked(key: Key, now: real) returns (duplicate: bool)
      requires clock <= now
      modifies this
      ensures duplicate == Duplicate(Apply(cfg, old(Snapshot()), Tick(now)), key)
      ensures Snapshot() == Apply(cfg, Apply(cfg, old(Snapshot()), Tick(now)), Check(key))
    {
      clock := now;
      if key in cache {
        if now < cache[key] {
          hits := hits + 1;
          return true;
        }
        cache := cache - {key};
      } else {
        assert cache - {key} == cache;
      }
      misses := misses + 1;
      return false;
    }

    /** `is_duplicate`: whatever the cleanup before it removes, the answer is that of the entry. */
    method IsDuplicate(key: Key, first: real, second: real) returns (duplicate: bool)
      requires clock <= first <= second
      modifies this
      ensures duplicate == (key in old(cache) && second < old(cache)[key])
      ensures cache.Keys <= old(cache).Keys && forall k :: k in cache ==> cache[k] == old(cache)[k]
      ensures hits + misses == old(hits) + old(misses) + 1 && clock == second && overflowed == old(overflowed)
    {
      clock := first;
      MaybeCleanup(first);
      duplicate := CheckLocked(key, second);
    }

    /** Drops the oldest entries, and nothing that expires later than an entry it keeps. */
    method EvictOldest() returns (ghost victims: set<Key>)
      requires cache != map[]
      modifies this
      ensures Oldest(old(cache), victims) && cache == old(cache) - victims
      ensures evictions == old(evictions) + |victims|
      ensures clock == old(clock) && lastCleanup == old(lastCleanup) && overflowed == old(overflowed)
      ensures hits == old(hits) && misses == old(misses)
    {
      var order := OldestFirst(cache);
      var n := EvictCount(|cache|);
      victims := Listed(order[..n]);
      ListedSize(order[..n]);
      OldestPrefix(cache, order, n);
      cache := DeleteKeys(cache, order[..n]);
      evictions := evictions + n;
    }

    /** `mark_processed`, with the time to live given or by default. */
    method MarkProcessed(key: Key, lifetime: Lifetime, now: real) returns (ghost victims: set<Key>)
      requires clock <= now
      modifies this
      ensures var ticked := Apply(cfg, old(Snapshot()), Tick(now));
              var ttl := if lifetime.Override? then lifetime.seconds else cfg.ttl;
              && Enabled(cfg, ticked, Mark(key, ttl, victims))
              && Snapshot() == Apply(cfg, ticked, Mark(key, ttl, victims))
    {
      var ttl := lifetime.Seconds(cfg);
      ghost var before := Snapshot();
      clock := now;
      cache := cache[key := now + ttl];
      victims := {};
      if |cache| > cfg.maxSize {
        overflowed := true;
        victims := EvictOldest();
      }
      MarkedState(cfg, before, now, key, ttl, victims, Snapshot());
    }
  }

  /** What a mark makes of the fields is the machine's step. */
  lemma {:induction false} MarkedState(
    cfg: Config, s: State, now: real, key: Key, ttl: real, victims: set<Key>, after: State)
    requires var marked := s.cache[key := now + ttl];
             && (if |marked| > cfg.maxSize then Oldest(marked, victims) else victims == {})
             && after.cache == (if |marked| > cfg.maxSize then marked - victims else marked)
             && after.evictions == s.evictions + |victims| && after.overflowed == (s.overflowed || |marked| > cfg.maxSize)
    requires after.clock == now && after.lastCleanup == s.lastCleanup && after.hits == s.hits && after.misses == s.misses
    ensures var ticked := Apply(cfg, s, Tick(now));
            Enabled(cfg, ticked, Mark(key, ttl, victims)) && after == Apply(cfg, ticked, Mark(key, ttl, victims))
  {
    var marked := s.cache[key := now + ttl];
    assert marked - {} == marked;
  }

  lemma {:induction false} OldestPrefix(cache: map<Key, real>, order: seq<Key>, n: nat)
    requires n <= |order| && n == EvictCount(|cache|) && |Listed(order[..n])| == n
    requires forall k :: k in order <==> k in cache
    requires forall i, j :: 0 <= i < j < |order| ==> order[i] != order[j] && cache[order[i]] <= cache[order[j]]
    ensures Oldest(cache, Listed(order[..n]))
  {
    forall v, k | v in Listed(order[..n]) && k in cache && k !in Listed(order[..n]) ensures cache[v] <= cache[k] {
      var i :| 0 <= i < n && order[..n][i] == v;
      var j :| 0 <= j < |order| && order[j] == k;
      PrefixListed(order, n, j);
      assert cache[order[i]] <= cache[order[j]];
    }
    forall v | v in Listed(order[..n]) ensures v in cache {
      var i :| 0 <= i < n && order[..n][i] == v;
      assert order[i] in order;
    }
  }

  lemma {:induction false} PrefixListed(order: seq<Key>, n: nat, j: nat)
    requires n <= |order| && j < |order|
    ensures j < n ==> order[j] in Listed(order[..n])
  {
    if j < n {
      assert order[..n][j] == order[j];
    }
  }
}
