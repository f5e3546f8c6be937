/** The embedding job pipeline: validate, filter, slice, embed, publish; retries republish earlier
    batches; completion is announced once per finished attempt. */
module JobPipeline {

  import opened Arithmetic

  type Vec = seq<real>

  datatype Chunk = Chunk(
    id: string, fileId: string, documentId: string, source: string, text: string,
    retrievalAllowed: bool, reviewStatus: string)

  /** A message as the schema parser sees it. */
  datatype Job = Job(wellFormed: bool, fileId: string, documentId: string, chunks: seq<Chunk>)

  datatype Embedded = Embedded(chunk: Chunk, vector: Vec)

  datatype Event =
    | Upsert(chunks: seq<Embedded>)
    | JobCompleted(requested: nat, embedded: nat, skipped: nat, batches: nat, dimensions: nat)
    | StageUpdate

  datatype Config = Config(batchSize: nat, prefix: string, maxRetries: int)

  // ------------------------------------------------------------------
  // What the environment does to one attempt
  // ------------------------------------------------------------------

  /** A publish either succeeds or raises, before or after the message left. */
  datatype Send = Sent | LostBefore | LostAfter

  datatype BatchFate = Encoded(send: Send) | CountMismatch | EncodeFails

  /** Completion sends two messages and flushes; `left` of them got out when it raised. */
  datatype CompletionFate = Announced | CompletionFails(left: nat)

  datatype Fate = Fate(available: bool, batches: seq<BatchFate>, completion: CompletionFate)

  function FateOf(fate: Fate, i: nat): BatchFate {
    if i < |fate.batches| then fate.batches[i] else Encoded(Sent)
  }

  datatype Result = Done | Retryable | NonRetryable

  datatype Attempt = Attempt(events: seq<Event>, result: Result)

  // ------------------------------------------------------------------
  // Filter and slice
  // ------------------------------------------------------------------

  predicate IsEligible(c: Chunk) { c.retrievalAllowed && c.reviewStatus != "removed" }

  /** The eligible chunks, in order. */
  function Eligible(chunks: seq<Chunk>): seq<Chunk> {
    if chunks == [] then []
    else (if IsEligible(chunks[0]) then [chunks[0]] else []) + Eligible(chunks[1..])
  }

  function Skipped(chunks: seq<Chunk>): seq<Chunk> {
    if chunks == [] then []
    else (if IsEligible(chunks[0]) then [] else [chunks[0]]) + Skipped(chunks[1..])
  }

  predicate Increasing(indices: seq<nat>) {
    forall i, j :: 0 <= i < j < |indices| ==> indices[i] < indices[j]
  }

  /** `part` is what `chunks` holds at the listed positions. */
  predicate PickedAt(chunks: seq<Chunk>, part: seq<Chunk>, indices: seq<nat>) {
    && Increasing(indices) && |part| == |indices|
    && forall j :: 0 <= j < |indices| ==> indices[j] < |chunks| && part[j] == chunks[indices[j]]
  }

  /** Every position is in exactly one of the two lists, and in the first one exactly when the chunk may
      be retrieved and was not removed in review. */
  predicate IsSplit(chunks: seq<Chunk>, eligible: seq<Chunk>, skipped: seq<Chunk>, kept: seq<nat>, dropped: seq<nat>) {
    && PickedAt(chunks, eligible, kept) && PickedAt(chunks, skipped, dropped)
    && forall i :: 0 <= i < |chunks| ==>
         && (i in kept <==> chunks[i].retrievalAllowed && chunks[i].reviewStatus != "removed")
         && (i in dropped <==> !chunks[i].retrievalAllowed || chunks[i].reviewStatus == "removed")
  }

  predicate ValidJob(job: Job) {
    && job.wellFormed
    && (forall i :: 0 <= i < |job.chunks| ==>
          job.chunks[i].fileId == job.fileId && job.chunks[i].documentId == job.documentId)
    && (forall i, j :: 0 <= i < |job.chunks| && 0 <= j < |job.chunks| ==>
          job.chunks[i].source == job.chunks[j].source)
  }

  function EmbedAll(cfg: Config, f: string -> Vec, chunks: seq<Chunk>): (r: seq<Embedded>)
    ensures |r| == |chunks|
  {
    seq(|chunks|, i requires 0 <= i < |chunks| => Embedded(chunks[i], f(cfg.prefix + chunks[i].text)))
  }

  /** Where the batch that starts at `at` ends. */
  function BatchEnd(cfg: Config, n: nat, at: nat): nat
    requires cfg.batchSize > 0
  {
    if at + cfg.batchSize <= n then at + cfg.batchSize else n
  }

  function NextDimensions(dims: nat, batch: seq<Embedded>): nat {
    if batch != [] && dims == 0 then |batch[0].vector| else dims
  }

  function Completion(job: Job, done: nat, dims: nat, fate: CompletionFate): Attempt {
    var event := JobCompleted(|job.chunks|, |Eligible(job.chunks)|, |Skipped(job.chunks)|, done, dims);
    match fate
    case Announced => Attempt([event, StageUpdate], Done)
    case CompletionFails(left) =>
      Attempt(if left == 0 then [] else if left == 1 then [event] else [event, StageUpdate], Retryable)
  }

  /** The rest of an attempt, once `done` batches up to position `at` have been published. */
  function Batches(cfg: Config, f: string -> Vec, job: Job, fate: Fate, at: nat, done: nat, dims: nat): Attempt
    requires cfg.batchSize > 0 && at <= |Eligible(job.chunks)|
    decreases |Eligible(job.chunks)| - at
  {
    var chunks := Eligible(job.chunks);
    if at == |chunks| then Completion(job, done, dims, fate.completion)
    else
      var end := BatchEnd(cfg, |chunks|, at);
      match FateOf(fate, done)
      case EncodeFails => Attempt([], Retryable)
      case CountMismatch => Attempt([], NonRetryable)
      case Encoded(send) =>
        var batch := EmbedAll(cfg, f, chunks[at..end]);
        match send
        case LostBefore => Attempt([], Retryable)
        case LostAfter => Attempt([Upsert(batch)], Retryable)
        case Sent =>
          var rest := Batches(cfg, f, job, fate, end, done + 1, NextDimensions(dims, batch));
          Attempt([Upsert(batch)] + rest.events, rest.result)
  }

  /** `_process_job_once`. */
  function AttemptOf(cfg: Config, f: string -> Vec, job: Job, fate: Fate): Attempt
    requires cfg.batchSize > 0
  {
    if !fate.available then Attempt([], Retryable)
    else if !ValidJob(job) then Attempt([], NonRetryable)
    else Batches(cfg, f, job, fate, 0, 0, 0)
  }

  // ------------------------------------------------------------------
  // One attempt
  // ------------------------------------------------------------------

  /** Everything upserted, in publication order. */
  function Upserted(events: seq<Event>): seq<Embedded> {
    if events == [] then []
    else (if events[0].Upsert? then events[0].chunks else []) + Upserted(events[1..])
  }

  function CountUpserts(events: seq<Event>): nat {
    if events == [] then 0 else (if events[0].Upsert? then 1 else 0) + CountUpserts(events[1..])
  }

  lemma {:induction false} EmbedSplit(cfg: Config, f: string -> Vec, chunks: seq<Chunk>, at: nat, end: nat)
    requires at <= end <= |chunks|
    ensures EmbedAll(cfg, f, chunks[at..end]) + EmbedAll(cfg, f, chunks[end..]) == EmbedAll(cfg, f, chunks[at..])
  {
  }

  lemma {:induction false} UpsertedCons(batch: seq<Embedded>, rest: seq<Event>)
    ensures Upserted([Upsert(batch)] + rest) == batch + Upserted(rest)
    ensures CountUpserts([Upsert(batch)] + rest) == 1 + CountUpserts(rest)
  {
    assert ([Upsert(batch)] + rest)[1..] == rest;
  }

  lemma {:induction false} CompletionUpserts(job: Job, done: nat, dims: nat, fate: CompletionFate)
    ensures Upserted(Completion(job, done, dims, fate).events) == []
    ensures CountUpserts(Completion(job, done, dims, fate).events) == 0
  {
    var event := JobCompleted(|job.chunks|, |Eligible(job.chunks)|, |Skipped(job.chunks)|, done, dims);
    assert [event, StageUpdate][1..] == [StageUpdate] && [StageUpdate][1..] == [] && [event][1..] == [];
    assert Upserted([StageUpdate]) == [] && CountUpserts([StageUpdate]) == 0;
  }

  /** Any attempt publishes a beginning of the eligible chunks, each with its own vector; a finished
      one publishes them all. */
  lemma {:induction false} BatchesUpsert(
    cfg: Config, f: string -> Vec, job: Job, fate: Fate, at: nat, done: nat, dims: nat)
    requires cfg.batchSize > 0 && at <= |Eligible(job.chunks)|
    ensures var a := Batches(cfg, f, job, fate, at, done, dims);
            var all := EmbedAll(cfg, f, Eligible(job.chunks)[at..]);
            Upserted(a.events) <= all && (a.result.Done? ==> Upserted(a.events) == all)
    decreases |Eligible(job.chunks)| - at
  {
    var chunks := Eligible(job.chunks);
    if at == |chunks| {
      CompletionUpserts(job, done, dims, fate.completion);
    } else {
      var end := BatchEnd(cfg, |chunks|, at);
      var batch := EmbedAll(cfg, f, chunks[at..end]);
      EmbedSplit(cfg, f, chunks, at, end);
      if FateOf(fate, done).Encoded? && FateOf(fate, done).send.Sent? {
        BatchesUpsert(cfg, f, job, fate, end, done + 1, NextDimensions(dims, batch));
        var rest := Batches(cfg, f, job, fate, end, done + 1, NextDimensions(dims, batch));
        UpsertedCons(batch, rest.events);
      } else {
        UpsertedCons(batch, []);
        assert [Upsert(batch)] + [] == [Upsert(batch)] && batch + [] == batch;
      }
    }
  }

  /** `ceil(n / size)`. */
  function Ceil(n: nat, size: nat): nat
    requires size > 0
  {
    (n + size - 1) / size
  }

  lemma {:induction false} CeilStep(n: nat, size: nat)
    requires size > 0 && n > 0
    ensures Ceil(n, size) == 1 + if n > size then Ceil(n - size, size) else 0
  {
    if n > size {
      assert n + size - 1 == (n - size + size - 1) + size;
      DivStep(n - size + size - 1, size);
    } else {
      assert (n + size - 1) / size == 1 by {
        DivStep(n - 1, size);
        assert (n - 1) / size == 0;
      }
    }
  }

  /** `n` upserts of at most `size` chunks, then the completion that counts `batches` of them, then
      the stage update. */
  predicate Shape(events: seq<Event>, n: nat, batches: nat, job: Job, size: nat) {
    && |events| == n + 2
    && (forall i :: 0 <= i < n ==> events[i].Upsert? && 1 <= |events[i].chunks| <= size)
    && events[n].JobCompleted?
    && events[n].requested == |job.chunks|
    && events[n].embedded == |Eligible(job.chunks)|
    && events[n].skipped == |Skipped(job.chunks)|
    && events[n].batches == batches
    && events[n + 1].StageUpdate?
  }

  lemma {:induction false} ShapeCons(
    batch: seq<Embedded>, rest: seq<Event>, n: nat, batches: nat, job: Job, size: nat)
    requires Shape(rest, n, batches, job, size) && 1 <= |batch| <= size
    ensures Shape([Upsert(batch)] + rest, n + 1, batches, job, size)
  {
    var events := [Upsert(batch)] + rest;
    assert forall i :: 1 <= i < |events| ==> events[i] == rest[i - 1];
  }

  /** What a finished attempt looks like from position `at` on. */
  lemma {:induction false} BatchesFinish(
    cfg: Config, f: string -> Vec, job: Job, fate: Fate, at: nat, done: nat, dims: nat, n: nat)
    requires cfg.batchSize > 0 && at <= |Eligible(job.chunks)|
    requires n == Ceil(|Eligible(job.chunks)| - at, cfg.batchSize)
    requires Batches(cfg, f, job, fate, at, done, dims).result.Done?
    ensures Shape(Batches(cfg, f, job, fate, at, done, dims).events, n, done + n, job, cfg.batchSize)
    decreases |Eligible(job.chunks)| - at
  {
    var chunks := Eligible(job.chunks);
    CeilZero(cfg.batchSize);
    if at < |chunks| {
      var end := BatchEnd(cfg, |chunks|, at);
      CeilStep(|chunks| - at, cfg.batchSize);
      var batch := EmbedAll(cfg, f, chunks[at..end]);
      BatchesFinish(cfg, f, job, fate, end, done + 1, NextDimensions(dims, batch), n - 1);
      var rest := Batches(cfg, f, job, fate, end, done + 1, NextDimensions(dims, batch)).events;
      ShapeCons(batch, rest, n - 1, done + n, job, cfg.batchSize);
    }
  }

  lemma {:induction false} CeilZero(size: nat)
    requires size > 0
    ensures Ceil(0, size) == 0
  {
  }

  lemma {:induction false} SplitCounts(chunks: seq<Chunk>)
    ensures |Eligible(chunks)| + |Skipped(chunks)| == |chunks|
  {
    if chunks != [] {
      SplitCounts(chunks[1..]);
    }
  }

  /** A finished attempt publishes, in order, upserts that concatenate to the eligible chunks each
      paired with its own vector, in `ceil(eligible / batch_size)` batches of at most `batch_size`,
      then one completion that counts them, then the stage update; and `embedded + skipped` is what
      was requested. */
  lemma {:induction false} FinishedAttempt(cfg: Config, f: string -> Vec, job: Job, fate: Fate)
    requires cfg.batchSize > 0 && AttemptOf(cfg, f, job, fate).result.Done?
    ensures var events := AttemptOf(cfg, f, job, fate).events;
            var n := Ceil(|Eligible(job.chunks)|, cfg.batchSize);
            && ValidJob(job)
            && Upserted(events) == EmbedAll(cfg, f, Eligible(job.chunks))
            && Shape(events, n, n, job, cfg.batchSize)
            && events[n].embedded + events[n].skipped == events[n].requested
  {
    BatchesUpsert(cfg, f, job, fate, 0, 0, 0);
    BatchesFinish(cfg, f, job, fate, 0, 0, 0, Ceil(|Eligible(job.chunks)|, cfg.batchSize));
    SplitCounts(job.chunks);
    assert Eligible(job.chunks)[0..] == Eligible(job.chunks);
  }

  /** A completion event is published only after every batch of its own attempt. */
  lemma {:induction false} CompletionComesLast(
    cfg: Config, f: string -> Vec, job: Job, fate: Fate, at: nat, done: nat, dims: nat, i: nat)
    requires cfg.batchSize > 0 && at <= |Eligible(job.chunks)|
    requires var events := Batches(cfg, f, job, fate, at, done, dims).events; i < |events| && events[i].JobCompleted?
    ensures var events := Batches(cfg, f, job, fate, at, done, dims).events;
            && Upserted(events[..i]) == EmbedAll(cfg, f, Eligible(job.chunks)[at..])
            && (forall j :: i < j < |events| ==> !events[j].Upsert?)
    decreases |Eligible(job.chunks)| - at
  {
    var chunks := Eligible(job.chunks);
    var events := Batches(cfg, f, job, fate, at, done, dims).events;
    if at == |chunks| {
      assert i == 0 && events[..0] == [];
    } else {
      var end := BatchEnd(cfg, |chunks|, at);
      var batch := EmbedAll(cfg, f, chunks[at..end]);
      var rest := Batches(cfg, f, job, fate, end, done + 1, NextDimensions(dims, batch)).events;
      assert events == [Upsert(batch)] + rest;
      CompletionComesLast(cfg, f, job, fate, end, done + 1, NextDimensions(dims, batch), i - 1);
      EmbedSplit(cfg, f, chunks, at, end);
      LastAfterCons(batch, rest, i, EmbedAll(cfg, f, chunks[end..]));
    }
  }

  lemma {:induction false} LastAfterCons(batch: seq<Embedded>, rest: seq<Event>, i: nat, all: seq<Embedded>)
    requires 1 <= i <= |rest| && Upserted(rest[..i - 1]) == all
    requires forall j :: i - 1 < j < |rest| ==> !rest[j].Upsert?
    ensures var events := [Upsert(batch)] + rest;
            Upserted(events[..i]) == batch + all && forall j :: i < j < |events| ==> !events[j].Upsert?
  {
    var events := [Upsert(batch)] + rest;
    assert events[..i] == [Upsert(batch)] + rest[..i - 1];
    UpsertedCons(batch, rest[..i - 1]);
    assert forall j :: i < j < |events| ==> events[j] == rest[j - 1];
  }

  // ------------------------------------------------------------------
  // Retries
  // ------------------------------------------------------------------

  datatype Verdict = Succeeded | DeadLettered(retryCount: nat)

  /** The events of a whole message, the verdict, and how often the function ran. */
  datatype Outcome = Outcome(events: seq<Event>, verdict: Verdict, runs: nat)

  function MaxI(a: int, b: int): int { if a >= b then a else b }

  function Limit(cfg: Config): nat { MaxI(1, cfg.maxRetries) }

  /** `RetryPolicy.execute` inside `process_message`, from attempt `k` on. */
  function Retry(cfg: Config, f: string -> Vec, job: Job, fates: nat -> Fate, k: nat): Outcome
    requires cfg.batchSize > 0 && k <= Limit(cfg)
    decreases Limit(cfg) - k
  {
    if k == Limit(cfg) then Outcome([], DeadLettered(k), 0)
    else
      var a := AttemptOf(cfg, f, job, fates(k));
      match a.result
      case Done => Outcome(a.events, Succeeded, 1)
      case NonRetryable => Outcome(a.events, DeadLettered(k + 1), 1)
      case Retryable =>
        var rest := Retry(cfg, f, job, fates, k + 1);
        Outcome(a.events + rest.events, rest.verdict, 1 + rest.runs)
  }

  /** The function runs at most `max(1, kafka_max_retries)` times, and when the message is given up
      the reported retry count is exactly the number of runs so far. */
  lemma {:induction false} RunsBounded(cfg: Config, f: string -> Vec, job: Job, fates: nat -> Fate, k: nat)
    requires cfg.batchSize > 0 && k <= Limit(cfg)
    ensures var o := Retry(cfg, f, job, fates, k);
            && k + o.runs <= Limit(cfg)
            && (o.verdict.DeadLettered? ==> o.verdict.retryCount == k + o.runs)
    decreases Limit(cfg) - k
  {
    if k < Limit(cfg) {
      RunsBounded(cfg, f, job, fates, k + 1);
    }
  }

  // ------------------------------------------------------------------
  // The vector store
  // ------------------------------------------------------------------

  type Store = map<string, Embedded>

  /** Upserts are puts keyed by chunk id. */
  function Put(store: Store, chunks: seq<Embedded>): Store
    decreases |chunks|
  {
    if chunks == [] then store else Put(store[chunks[0].chunk.id := chunks[0]], chunks[1..])
  }

  function Replay(store: Store, events: seq<Event>): Store {
    Put(store, Upserted(events))
  }

  predicate HasId(chunks: seq<Embedded>, id: string) {
    exists i :: 0 <= i < |chunks| && chunks[i].chunk.id == id
  }

  lemma {:induction false} HasIdCons(chunks: seq<Embedded>, id: string)
    requires chunks != []
    ensures HasId(chunks, id) <==> chunks[0].chunk.id == id || HasId(chunks[1..], id)
  {
    if HasId(chunks, id) && chunks[0].chunk.id != id {
      var i :| 0 <= i < |chunks| && chunks[i].chunk.id == id;
      assert chunks[1..][i - 1].chunk.id == id;
    }
    if HasId(chunks[1..], id) {
      var i :| 0 <= i < |chunks[1..]| && chunks[1..][i].chunk.id == id;
      assert chunks[i + 1].chunk.id == id;
    }
  }

  lemma {:induction false} HasIdPrefix(early: seq<Embedded>, all: seq<Embedded>, id: string)
    requires early <= all
    ensures HasId(early, id) ==> HasId(all, id)
  {
    if HasId(early, id) {
      var i :| 0 <= i < |early| && early[i].chunk.id == id;
      assert all[i] == early[i];
    }
  }

  /** Two stores that agree outside the ids being put become equal. */
  lemma {:induction false} PutAgrees(a: Store, b: Store, chunks: seq<Embedded>)
    requires forall id :: !HasId(chunks, id) ==> (id in a <==> id in b) && (id in a ==> a[id] == b[id])
    ensures Put(a, chunks) == Put(b, chunks)
    decreases |chunks|
  {
    if chunks == [] {
      assert forall id :: !HasId(chunks, id);
      assert a == b;
    } else {
      var x := chunks[0];
      var a', b' := a[x.chunk.id := x], b[x.chunk.id := x];
      forall id | !HasId(chunks[1..], id) ensures (id in a' <==> id in b') && (id in a' ==> a'[id] == b'[id]) {
        HasIdCons(chunks, id);
      }
      PutAgrees(a', b', chunks[1..]);
    }
  }

  lemma {:induction false} PutOthers(store: Store, chunks: seq<Embedded>, id: string)
    requires !HasId(chunks, id)
    ensures (id in Put(store, chunks) <==> id in store) && (id in store ==> Put(store, chunks)[id] == store[id])
    decreases |chunks|
  {
    if chunks != [] {
      HasIdCons(chunks, id);
      PutOthers(store[chunks[0].chunk.id := chunks[0]], chunks[1..], id);
    }
  }

  /** Putting a beginning first changes nothing once everything is put. */
  lemma {:induction false} PutPrefix(store: Store, early: seq<Embedded>, all: seq<Embedded>)
    requires early <= all
    ensures Put(Put(store, early), all) == Put(store, all)
  {
    forall id | !HasId(all, id)
      ensures (id in Put(store, early) <==> id in store) && (id in store ==> Put(store, early)[id] == store[id])
    {
      HasIdPrefix(early, all, id);
      PutOthers(store, early, id);
    }
    PutAgrees(Put(store, early), store, all);
  }

  lemma {:induction false} PutConcat(store: Store, a: seq<Embedded>, b: seq<Embedded>)
    ensures Put(store, a + b) == Put(Put(store, a), b)
    decreases |a|
  {
    if a == [] {
      assert a + b == b;
    } else {
      assert (a + b)[1..] == a[1..] + b;
      PutConcat(store[a[0].chunk.id := a[0]], a[1..], b);
    }
  }

  lemma {:induction false} UpsertedConcat(a: seq<Event>, b: seq<Event>)
    ensures Upserted(a + b) == Upserted(a) + Upserted(b)
    decreases |a|
  {
    if a == [] {
      assert a + b == b;
    } else {
      assert (a + b)[1..] == a[1..] + b;
      UpsertedConcat(a[1..], b);
    }
  }

  lemma {:induction false} AttemptUpserts(cfg: Config, f: string -> Vec, job: Job, fate: Fate)
    requires cfg.batchSize > 0
    ensures var a := AttemptOf(cfg, f, job, fate);
            var all := EmbedAll(cfg, f, Eligible(job.chunks));
            Upserted(a.events) <= all && (a.result.Done? ==> Upserted(a.events) == all)
  {
    BatchesUpsert(cfg, f, job, fate, 0, 0, 0);
    assert Eligible(job.chunks)[0..] == Eligible(job.chunks);
  }

  /** Retries are invisible in the store: whatever retryable failures came before, a message that
      succeeds leaves the same store as one clean attempt. */
  lemma {:induction false} RetriesAreIdempotent(
    cfg: Config, f: string -> Vec, job: Job, fates: nat -> Fate, k: nat, store: Store)
    requires cfg.batchSize > 0 && k <= Limit(cfg)
    requires Retry(cfg, f, job, fates, k).verdict.Succeeded?
    ensures Replay(store, Retry(cfg, f, job, fates, k).events) ==
            Put(store, EmbedAll(cfg, f, Eligible(job.chunks)))
    decreases Limit(cfg) - k
  {
    if k < Limit(cfg) {
      var a := AttemptOf(cfg, f, job, fates(k));
      var all := EmbedAll(cfg, f, Eligible(job.chunks));
      AttemptUpserts(cfg, f, job, fates(k));
      if a.result.Retryable? {
        var rest := Retry(cfg, f, job, fates, k + 1);
        UpsertedConcat(a.events, rest.events);
        PutConcat(store, Upserted(a.events), Upserted(rest.events));
        RetriesAreIdempotent(cfg, f, job, fates, k + 1, Put(store, Upserted(a.events)));
        PutPrefix(store, Upserted(a.events), all);
      }
    }
  }

  // ------------------------------------------------------------------
  // The service
  // ------------------------------------------------------------------

  lemma {:induction false} FilterLast(chunks: seq<Chunk>, c: Chunk)
    ensures Eligible(chunks + [c]) == Eligible(chunks) + if IsEligible(c) then [c] else []
    ensures Skipped(chunks + [c]) == Skipped(chunks) + if IsEligible(c) then [] else [c]
  {
    if chunks == [] {
      assert [] + [c] == [c];
    } else {
      assert (chunks + [c])[1..] == chunks[1..] + [c];
      FilterLast(chunks[1..], c);
    }
  }

  lemma {:induction false} SplitLast(
    chunks: seq<Chunk>, i: nat, eligible: seq<Chunk>, skipped: seq<Chunk>, kept: seq<nat>, dropped: seq<nat>)
    requires i < |chunks| && IsSplit(chunks[..i], eligible, skipped, kept, dropped)
    ensures if chunks[i].retrievalAllowed && chunks[i].reviewStatus != "removed"
            then IsSplit(chunks[..i + 1], eligible + [chunks[i]], skipped, kept + [i], dropped)
            else IsSplit(chunks[..i + 1], eligible, skipped + [chunks[i]], kept, dropped + [i])
  {
    assert forall j :: 0 <= j < i ==> chunks[..i + 1][j] == chunks[..i][j];
  }

  /** `_split_chunks`. */
  method SplitChunks(chunks: seq<Chunk>) returns (eligible: seq<Chunk>, skipped: seq<Chunk>)
    ensures eligible == Eligible(chunks) && skipped == Skipped(chunks)
    ensures exists kept, dropped :: IsSplit(chunks, eligible, skipped, kept, dropped)
  {
    eligible, skipped := [], [];
    ghost var kept: seq<nat>, dropped: seq<nat> := [], [];
    var i := 0;
    while i < |chunks|
      invariant 0 <= i <= |chunks|
      invariant eligible == Eligible(chunks[..i]) && skipped == Skipped(chunks[..i])
      invariant IsSplit(chunks[..i], eligible, skipped, kept, dropped)
    {
      assert chunks[..i + 1] == chunks[..i] + [chunks[i]];
      FilterLast(chunks[..i], chunks[i]);
      SplitLast(chunks, i, eligible, skipped, kept, dropped);
      if chunks[i].retrievalAllowed && chunks[i].reviewStatus != "removed" {
        eligible, kept := eligible + [chunks[i]], kept + [i];
      } else {
        skipped, dropped := skipped + [chunks[i]], dropped + [i];
      }
      i := i + 1;
    }
    assert chunks[..i] == chunks;
  }

  /** The cross-field checks of `_parse_and_validate_job`. */
  method Validate(job: Job) returns (ok: bool)
    ensures ok <==> ValidJob(job)
  {
    if !job.wellFormed {
      return false;
    }
    var sources: set<string> := {};
    var i := 0;
    while i < |job.chunks|
      invariant 0 <= i <= |job.chunks|
      invariant forall j :: 0 <= j < i ==>
                  job.chunks[j].fileId == job.fileId && job.chunks[j].documentId == job.documentId
      invariant sources == set j | 0 <= j < i :: job.chunks[j].source
    {
      if job.chunks[i].fileId != job.fileId || job.chunks[i].documentId != job.documentId {
        return false;
      }
      sources := sources + {job.chunks[i].source};
      i := i + 1;
    }
    OneSource(job.chunks, sources);
    return |sources| <= 1;
  }

  lemma {:induction false} OneSource(chunks: seq<Chunk>, sources: set<string>)
    requires sources == set j | 0 <= j < |chunks| :: chunks[j].source
    ensures |sources| <= 1 <==>
            forall i, j :: 0 <= i < |chunks| && 0 <= j < |chunks| ==> chunks[i].source == chunks[j].source
  {
    if |sources| <= 1 {
      forall i, j | 0 <= i < |chunks| && 0 <= j < |chunks| ensures chunks[i].source == chunks[j].source {
        var a, b := chunks[i].source, chunks[j].source;
        assert a in sources && b in sources;
        if a != b {
          assert {a, b} <= sources;
          SubsetSize({a, b}, sources);
        }
      }
    } else {
      var a :| a in sources;
      assert |sources - {a}| >= 1;
      var b :| b in sources - {a};
      var i :| 0 <= i < |chunks| && chunks[i].source == a;
      var j :| 0 <= j < |chunks| && chunks[j].source == b;
    }
  }

  lemma {:induction false} SubsetSize(a: set<string>, b: set<string>)
    requires a <= b
    ensures |a| <= |b|
  {
    assert b == a + (b - a);
  }

  /** `_process_job_once`, publishing batch by batch. */
  method ProcessJobOnce(cfg: Config, f: string -> Vec, job: Job, fate: Fate) returns (a: Attempt)
    requires cfg.batchSize > 0
    ensures a == AttemptOf(cfg, f, job, fate)
  {
    if !fate.available {
      return Attempt([], Retryable);
    }
    var ok := Validate(job);
    if !ok {
      return Attempt([], NonRetryable);
    }
    var chunks, skipped := SplitChunks(job.chunks);
    a := PublishBatches(cfg, f, job, fate, chunks);
  }

  /** The batch loop: slice, embed, publish, and announce completion at the end. */
  method PublishBatches(cfg: Config, f: string -> Vec, job: Job, fate: Fate, chunks: seq<Chunk>) returns (a: Attempt)
    requires cfg.batchSize > 0 && chunks == Eligible(job.chunks)
    ensures a == Batches(cfg, f, job, fate, 0, 0, 0)
  {
    var events: seq<Event> := [];
    var at: nat, done: nat, dims: nat := 0, 0, 0;
    while at < |chunks|
      invariant 0 <= at <= |chunks|
      invariant Batches(cfg, f, job, fate, 0, 0, 0) == Prepend(events, Batches(cfg, f, job, fate, at, done, dims))
      decreases |chunks| - at
    {
      var end := if at + cfg.batchSize <= |chunks| then at + cfg.batchSize else |chunks|;
      var batch := EmbedAll(cfg, f, chunks[at..end]);
      BatchesAt(cfg, f, job, fate, at, done, dims, end, batch);
      var stop, result := false, Retryable;
      match FateOf(fate, done) {
        case EncodeFails => stop := true;
        case CountMismatch => stop, result := true, NonRetryable;
        case Encoded(send) =>
          if send.LostBefore? {
            stop := true;
          } else {
            PrependOne(events, Upsert(batch), Batches(cfg, f, job, fate, end, done + 1, NextDimensions(dims, batch)));
            events := events + [Upsert(batch)];
            stop := send.LostAfter?;
          }
      }
      if stop {
        return Attempt(events, result);
      }
      dims := if batch != [] && dims == 0 then |batch[0].vector| else dims;
      at, done := end, done + 1;
    }
    a := Prepend(events, Completion(job, done, dims, fate.completion));
  }

  function Prepend(events: seq<Event>, a: Attempt): Attempt {
    Attempt(events + a.events, a.result)
  }

  lemma {:induction false} PrependOne(events: seq<Event>, e: Event, a: Attempt)
    ensures Prepend(events, Attempt([e] + a.events, a.result)) == Prepend(events + [e], a)
    ensures Prepend(events, Attempt([e], a.result)) == Attempt(events + [e], a.result)
  {
    assert events + ([e] + a.events) == events + [e] + a.events;
  }

  /** One turn of the loop, by the fate of its batch. */
  lemma {:induction false} BatchesAt(
    cfg: Config, f: string -> Vec, job: Job, fate: Fate, at: nat, done: nat, dims: nat, end: nat, batch: seq<Embedded>)
    requires cfg.batchSize > 0 && at < |Eligible(job.chunks)|
    requires end == BatchEnd(cfg, |Eligible(job.chunks)|, at) && batch == EmbedAll(cfg, f, Eligible(job.chunks)[at..end])
    ensures Batches(cfg, f, job, fate, at, done, dims) ==
            match FateOf(fate, done)
            case EncodeFails => Attempt([], Retryable)
            case CountMismatch => Attempt([], NonRetryable)
            case Encoded(LostBefore) => Attempt([], Retryable)
            case Encoded(LostAfter) => Attempt([Upsert(batch)], Retryable)
            case Encoded(Sent) =>
              Prepend([Upsert(batch)], Batches(cfg, f, job, fate, end, done + 1, NextDimensions(dims, batch)))
  {
  }

  function After(events: seq<Event>, runs: nat, rest: Outcome): Outcome {
    Outcome(events + rest.events, rest.verdict, runs + rest.runs)
  }

  /** One turn of the retry loop. */
  lemma {:induction false} RetryTurn(
    cfg: Config, f: string -> Vec, job: Job, fates: nat -> Fate, k: nat, events: seq<Event>)
    requires cfg.batchSize > 0 && k < Limit(cfg)
    ensures var a := AttemptOf(cfg, f, job, fates(k));
            After(events, k, Retry(cfg, f, job, fates, k)) ==
            match a.result
            case Done => Outcome(events + a.events, Succeeded, k + 1)
            case NonRetryable => Outcome(events + a.events, DeadLettered(k + 1), k + 1)
            case Retryable => After(events + a.events, k + 1, Retry(cfg, f, job, fates, k + 1))
  {
    var a := AttemptOf(cfg, f, job, fates(k));
    if a.result.Retryable? {
      var rest := Retry(cfg, f, job, fates, k + 1);
      assert events + (a.events + rest.events) == events + a.events + rest.events;
    }
  }

  /** `process_message`: the retry loop and the dead-letter decision. */
  method ProcessMessage(cfg: Config, f: string -> Vec, job: Job, fates: nat -> Fate) returns (o: Outcome)
    requires cfg.batchSize > 0
    ensures o == Retry(cfg, f, job, fates, 0)
  {
    var max := if cfg.maxRetries > 1 then cfg.maxRetries else 1;
    var events: seq<Event> := [];
    var attempt: nat := 0;
    while attempt < max
      invariant 0 <= attempt <= max == Limit(cfg)
      invariant Retry(cfg, f, job, fates, 0) == After(events, attempt, Retry(cfg, f, job, fates, attempt))
    {
      var a := ProcessJobOnce(cfg, f, job, fates(attempt));
      RetryTurn(cfg, f, job, fates, attempt, events);
      events := events + a.events;
      match a.result {
        case Done => return Outcome(events, Succeeded, attempt + 1);
        case NonRetryable => return Outcome(events, DeadLettered(attempt + 1), attempt + 1);
        case Retryable => attempt := attempt + 1;
      }
    }
    assert events + [] == events;
    return Outcome(events, DeadLettered(attempt), attempt);
  }
}
