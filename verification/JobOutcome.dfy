/** What a message publishes and how it ends, in the terms of its chunks, the fates of its batches and the
    settings. */
module JobOutcome {
  import opened JobPipeline

  // ------------------------------------------------------------------
  // What is published
  // ------------------------------------------------------------------

  /** The chunk may be retrieved and was not removed in review. */
  predicate Publishable(c: Chunk) { c.retrievalAllowed && c.reviewStatus != "removed" }

  lemma {:induction false} EligibleMembers(chunks: seq<Chunk>, c: Chunk)
    ensures c in Eligible(chunks) <==> c in chunks && Publishable(c)
  {
    if chunks != [] {
      assert chunks == [chunks[0]] + chunks[1..];
      EligibleMembers(chunks[1..], c);
    }
  }

  /** One published chunk: one of the job's own publishable chunks, of its file and document, with the
      model's vector of the prefixed text. */
  predicate Rightful(cfg: Config, f: string -> Vec, job: Job, e: Embedded) {
    && e.chunk in job.chunks && Publishable(e.chunk)
    && e.chunk.fileId == job.fileId && e.chunk.documentId == job.documentId
    && (forall i :: 0 <= i < |job.chunks| ==> job.chunks[i].source == e.chunk.source)
    && e.vector == f(cfg.prefix + e.chunk.text)
  }

  predicate AllRightful(cfg: Config, f: string -> Vec, job: Job, published: seq<Embedded>) {
    forall i :: 0 <= i < |published| ==> Rightful(cfg, f, job, published[i])
  }

  lemma {:induction false} EligibleIsRightful(cfg: Config, f: string -> Vec, job: Job, i: nat)
    requires ValidJob(job) && i < |Eligible(job.chunks)|
    ensures Rightful(cfg, f, job, EmbedAll(cfg, f, Eligible(job.chunks))[i])
  {
    var c := Eligible(job.chunks)[i];
    EligibleMembers(job.chunks, c);
    var j :| 0 <= j < |job.chunks| && job.chunks[j] == c;
  }

  lemma {:induction false} AttemptIsRightful(cfg: Config, f: string -> Vec, job: Job, fate: Fate)
    requires cfg.batchSize > 0
    ensures AllRightful(cfg, f, job, Upserted(AttemptOf(cfg, f, job, fate).events))
  {
    var published := Upserted(AttemptOf(cfg, f, job, fate).events);
    AttemptUpserts(cfg, f, job, fate);
    forall i | 0 <= i < |published| ensures Rightful(cfg, f, job, published[i]) {
      assert published[i] == EmbedAll(cfg, f, Eligible(job.chunks))[i];
      EligibleIsRightful(cfg, f, job, i);
    }
  }

  lemma {:induction false} RightfulConcat(cfg: Config, f: string -> Vec, job: Job, a: seq<Embedded>, b: seq<Embedded>)
    requires AllRightful(cfg, f, job, a) && AllRightful(cfg, f, job, b)
    ensures AllRightful(cfg, f, job, a + b)
  {
  }

  /** However often and however a message fails, nothing is ever published but its own publishable chunks
      with their own vectors: no removed or disallowed chunk, and none of another file or document. */
  lemma {:induction false} OnlyRightfulChunks(cfg: Config, f: string -> Vec, job: Job, fates: nat -> Fate, k: nat)
    requires cfg.batchSize > 0 && k <= Limit(cfg)
    ensures AllRightful(cfg, f, job, Upserted(Retry(cfg, f, job, fates, k).events))
    decreases Limit(cfg) - k
  {
    if k < Limit(cfg) {
      var a := AttemptOf(cfg, f, job, fates(k));
      var rest := if a.result.Retryable? then Upserted(Retry(cfg, f, job, fates, k + 1).events) else [];
      OnlyRightfulChunks(cfg, f, job, fates, k + 1);
      AttemptIsRightful(cfg, f, job, fates(k));
      RetryUpserts(cfg, f, job, fates, k);
      RightfulConcat(cfg, f, job, Upserted(a.events), rest);
    }
  }

  lemma {:induction false} RetryUpserts(cfg: Config, f: string -> Vec, job: Job, fates: nat -> Fate, k: nat)
    requires cfg.batchSize > 0 && k < Limit(cfg)
    ensures var a := AttemptOf(cfg, f, job, fates(k));
            Upserted(Retry(cfg, f, job, fates, k).events) ==
            Upserted(a.events) + if a.result.Retryable? then Upserted(Retry(cfg, f, job, fates, k + 1).events) else []
  {
    var a := AttemptOf(cfg, f, job, fates(k));
    if a.result.Retryable? {
      UpsertedConcat(a.events, Retry(cfg, f, job, fates, k + 1).events);
    }
  }

  /** The chunk that ends up under its id: the last one of the list with that id. */
  lemma {:induction false} PutHolds(store: Store, chunks: seq<Embedded>, id: string)
    requires HasId(chunks, id)
    ensures id in Put(store, chunks) && Put(store, chunks)[id] in chunks && Put(store, chunks)[id].chunk.id == id
    decreases |chunks|
  {
    var next := store[chunks[0].chunk.id := chunks[0]];
    assert chunks == [chunks[0]] + chunks[1..];
    HasIdCons(chunks, id);
    if HasId(chunks[1..], id) {
      PutHolds(next, chunks[1..], id);
    } else {
      PutOthers(next, chunks[1..], id);
    }
  }

  lemma {:induction false} EmbeddedIds(cfg: Config, f: string -> Vec, chunks: seq<Chunk>, id: string)
    ensures HasId(EmbedAll(cfg, f, Eligible(chunks)), id) <==>
            exists i :: 0 <= i < |chunks| && Publishable(chunks[i]) && chunks[i].id == id
  {
    var all := EmbedAll(cfg, f, Eligible(chunks));
    if HasId(all, id) {
      var j :| 0 <= j < |all| && all[j].chunk.id == id;
      EligibleMembers(chunks, all[j].chunk);
      var i :| 0 <= i < |chunks| && chunks[i] == all[j].chunk;
    }
    if i :| 0 <= i < |chunks| && Publishable(chunks[i]) && chunks[i].id == id {
      EligibleMembers(chunks, chunks[i]);
      var j :| 0 <= j < |Eligible(chunks)| && Eligible(chunks)[j] == chunks[i];
      assert all[j].chunk.id == id;
    }
  }

  /** After a message that succeeded the store holds, under each publishable id, a rightful chunk with that
      id, and under every other id what it held before. */
  lemma {:induction false} StoreAfterSuccess(
    cfg: Config, f: string -> Vec, job: Job, fates: nat -> Fate, store: Store, id: string)
    requires cfg.batchSize > 0 && Retry(cfg, f, job, fates, 0).verdict.Succeeded?
    ensures var after := Replay(store, Retry(cfg, f, job, fates, 0).events);
            if exists i :: 0 <= i < |job.chunks| && Publishable(job.chunks[i]) && job.chunks[i].id == id
            then id in after && after[id].chunk.id == id && Rightful(cfg, f, job, after[id])
            else (id in after <==> id in store) && (id in store ==> after[id] == store[id])
  {
    var all := EmbedAll(cfg, f, Eligible(job.chunks));
    RetriesAreIdempotent(cfg, f, job, fates, 0, store);
    EmbeddedIds(cfg, f, job.chunks, id);
    if HasId(all, id) {
      PutHolds(store, all, id);
      SuccessIsRightful(cfg, f, job, fates, 0, Put(store, all)[id]);
    } else {
      PutOthers(store, all, id);
    }
  }

  lemma {:induction false} SuccessIsRightful(cfg: Config, f: string -> Vec, job: Job, fates: nat -> Fate, k: nat, e: Embedded)
    requires cfg.batchSize > 0 && k <= Limit(cfg) && Retry(cfg, f, job, fates, k).verdict.Succeeded?
    requires e in EmbedAll(cfg, f, Eligible(job.chunks))
    ensures Rightful(cfg, f, job, e)
    decreases Limit(cfg) - k
  {
    if k < Limit(cfg) {
      var a := AttemptOf(cfg, f, job, fates(k));
      if a.result.Done? {
        AttemptUpserts(cfg, f, job, fates(k));
        AttemptIsRightful(cfg, f, job, fates(k));
        var i :| 0 <= i < |Upserted(a.events)| && Upserted(a.events)[i] == e;
      } else {
        SuccessIsRightful(cfg, f, job, fates, k + 1, e);
      }
    }
  }

  // ------------------------------------------------------------------
  // How an attempt ends
  // ------------------------------------------------------------------

  /** How many of the completion's two messages get out. */
  function Announced(fate: CompletionFate): nat {
    if fate.Announced? || fate.left > 2 then 2 else fate.left
  }

  /** The attempt got past its first `b` batches, all published, of `n`; what the next one, or the
      completion, makes of it. */
  predicate EndsAt(a: Attempt, fate: Fate, b: nat, done: nat, n: nat) {
    && b <= n
    && (forall i :: done <= i < done + b ==> FateOf(fate, i) == Encoded(Sent))
    && (if b == n
        then
          && CountUpserts(a.events) == n && |a.events| == n + Announced(fate.completion)
          && a.result == if fate.completion.Announced? then Done else Retryable
        else
          && FateOf(fate, done + b) != Encoded(Sent) && |a.events| == CountUpserts(a.events)
          && CountUpserts(a.events) == b + (if FateOf(fate, done + b) == Encoded(LostAfter) then 1 else 0)
          && a.result == if FateOf(fate, done + b).CountMismatch? then NonRetryable else Retryable)
  }

  lemma {:induction false} EndsLater(a: Attempt, batch: seq<Embedded>, fate: Fate, b: nat, done: nat, n: nat)
    requires EndsAt(a, fate, b, done + 1, n) && FateOf(fate, done) == Encoded(Sent)
    ensures EndsAt(Attempt([Upsert(batch)] + a.events, a.result), fate, b + 1, done, n + 1)
  {
    UpsertedCons(batch, a.events);
  }

  lemma {:induction false} BatchesEnd(
    cfg: Config, f: string -> Vec, job: Job, fate: Fate, at: nat, done: nat, dims: nat, n: nat) returns (b: nat)
    requires cfg.batchSize > 0 && at <= |Eligible(job.chunks)|
    requires n == Ceil(|Eligible(job.chunks)| - at, cfg.batchSize)
    ensures EndsAt(Batches(cfg, f, job, fate, at, done, dims), fate, b, done, n)
    decreases |Eligible(job.chunks)| - at
  {
    var chunks := Eligible(job.chunks);
    b := 0;
    CeilZero(cfg.batchSize);
    if at == |chunks| {
      CompletionUpserts(job, done, dims, fate.completion);
    } else {
      var end := BatchEnd(cfg, |chunks|, at);
      CeilStep(|chunks| - at, cfg.batchSize);
      var batch := EmbedAll(cfg, f, chunks[at..end]);
      UpsertedCons(batch, []);
      assert [Upsert(batch)] + [] == [Upsert(batch)];
      if FateOf(fate, done) == Encoded(Sent) {
        var c := BatchesEnd(cfg, f, job, fate, end, done + 1, NextDimensions(dims, batch), n - 1);
        b := c + 1;
        EndsLater(Batches(cfg, f, job, fate, end, done + 1, NextDimensions(dims, batch)), batch, fate, c, done, n - 1);
      }
    }
  }

  /** Every chunk is of the job's file and document, and of this source. */
  predicate AllOf(job: Job, source: string) {
    forall i :: 0 <= i < |job.chunks| ==>
      job.chunks[i].fileId == job.fileId && job.chunks[i].documentId == job.documentId && job.chunks[i].source == source
  }

  /** The job parses, and its chunks agree with it and with each other. */
  ghost predicate Coherent(job: Job) { job.wellFormed && exists source :: AllOf(job, source) }

  lemma {:induction false} CoherentExactly(job: Job)
    ensures ValidJob(job) <==> Coherent(job)
  {
    if ValidJob(job) {
      assert AllOf(job, if job.chunks == [] then "" else job.chunks[0].source);
    }
  }

  /** How an attempt ends: retryable when the model is missing; not retryable for an invalid job; otherwise
      it publishes the batches before the first one that does not go out, plus that one if only its
      confirmation was lost; a count mismatch there is not retryable and everything else is; and when all
      went out it is done exactly if the completion was announced. */
  lemma {:induction false} AttemptEndsExactly(cfg: Config, f: string -> Vec, job: Job, fate: Fate) returns (b: nat)
    requires cfg.batchSize > 0
    ensures var a := AttemptOf(cfg, f, job, fate);
            && (!fate.available ==> a == Attempt([], Retryable))
            && (fate.available && !Coherent(job) ==> a == Attempt([], NonRetryable))
            && (fate.available && Coherent(job) ==> EndsAt(a, fate, b, 0, Ceil(|Eligible(job.chunks)|, cfg.batchSize)))
  {
    CoherentExactly(job);
    b := BatchesEnd(cfg, f, job, fate, 0, 0, 0, Ceil(|Eligible(job.chunks)|, cfg.batchSize));
  }

  // ------------------------------------------------------------------
  // How a message ends
  // ------------------------------------------------------------------

  lemma {:induction false} RetryFrom(cfg: Config, f: string -> Vec, job: Job, fates: nat -> Fate, k: nat)
    requires cfg.batchSize > 0 && k < Limit(cfg)
    ensures var o := Retry(cfg, f, job, fates, k);
            && o.runs >= 1 && k + o.runs <= Limit(cfg)
            && (forall j :: k <= j < k + o.runs - 1 ==> AttemptOf(cfg, f, job, fates(j)).result.Retryable?)
            && var last := AttemptOf(cfg, f, job, fates(k + o.runs - 1)).result;
            && (last.Retryable? ==> k + o.runs == Limit(cfg))
            && o.verdict == if last.Done? then Succeeded else DeadLettered(k + o.runs)
    decreases Limit(cfg) - k
  {
    if AttemptOf(cfg, f, job, fates(k)).result.Retryable? && k + 1 < Limit(cfg) {
      RetryFrom(cfg, f, job, fates, k + 1);
    }
  }

  /** A message runs until its first attempt that does not end retryable, at least once and at most
      `max(1, kafka_max_retries)` times; it succeeds exactly if that attempt is done, and is otherwise
      dead-lettered with the number of runs. */
  lemma {:induction false} MessageEndsExactly(cfg: Config, f: string -> Vec, job: Job, fates: nat -> Fate)
    requires cfg.batchSize > 0
    ensures var o, max := Retry(cfg, f, job, fates, 0), if cfg.maxRetries >= 1 then cfg.maxRetries else 1;
            && 1 <= o.runs <= max
            && (forall j :: 0 <= j < o.runs - 1 ==> AttemptOf(cfg, f, job, fates(j)).result.Retryable?)
            && var last := AttemptOf(cfg, f, job, fates(o.runs - 1)).result;
            && (last.Retryable? ==> o.runs == max)
            && o.verdict == if last.Done? then Succeeded else DeadLettered(o.runs)
  {
    RetryFrom(cfg, f, job, fates, 0);
  }

  // ------------------------------------------------------------------
  // The announced dimensions
  // ------------------------------------------------------------------

  lemma {:induction false} DimensionsFrom(
    cfg: Config, f: string -> Vec, job: Job, fate: Fate, at: nat, done: nat, dims: nat, d: nat, i: nat)
    requires cfg.batchSize > 0 && at <= |Eligible(job.chunks)| && (forall text :: |f(text)| == d)
    requires dims == if at == 0 then 0 else d
    requires var events := Batches(cfg, f, job, fate, at, done, dims).events; i < |events| && events[i].JobCompleted?
    ensures Batches(cfg, f, job, fate, at, done, dims).events[i].dimensions == if Eligible(job.chunks) == [] then 0 else d
    decreases |Eligible(job.chunks)| - at
  {
    var chunks := Eligible(job.chunks);
    if at < |chunks| {
      var end := BatchEnd(cfg, |chunks|, at);
      var batch := EmbedAll(cfg, f, chunks[at..end]);
      var rest := Batches(cfg, f, job, fate, end, done + 1, NextDimensions(dims, batch)).events;
      assert Batches(cfg, f, job, fate, at, done, dims).events == [Upsert(batch)] + rest;
      assert batch[0] == Embedded(chunks[at], f(cfg.prefix + chunks[at].text));
      DimensionsFrom(cfg, f, job, fate, end, done + 1, NextDimensions(dims, batch), d, i - 1);
    }
  }

  /** With a model of `d` dimensions a completion announces `d`, or zero when no chunk was publishable. */
  lemma {:induction false} AnnouncedDimensions(cfg: Config, f: string -> Vec, job: Job, fate: Fate, d: nat, i: nat)
    requires cfg.batchSize > 0 && (forall text :: |f(text)| == d)
    requires var events := AttemptOf(cfg, f, job, fate).events; i < |events| && events[i].JobCompleted?
    ensures AttemptOf(cfg, f, job, fate).events[i].dimensions ==
            if exists j :: 0 <= j < |job.chunks| && Publishable(job.chunks[j]) then d else 0
  {
    DimensionsFrom(cfg, f, job, fate, 0, 0, 0, d, i);
    if Eligible(job.chunks) != [] {
      EligibleMembers(job.chunks, Eligible(job.chunks)[0]);
      var j :| 0 <= j < |job.chunks| && job.chunks[j] == Eligible(job.chunks)[0];
    }
    if j :| 0 <= j < |job.chunks| && Publishable(job.chunks[j]) {
      EligibleMembers(job.chunks, job.chunks[j]);
    }
  }
}
