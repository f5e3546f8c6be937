# Verified model of the ragforge coordination core

This project models, in Dafny, the parts of ragforge whose correctness depends on interleavings,
retries and histories, and proves what they promise:

- the shared-batch embedding scheduler (`backend/embedding/app/services/inference_scheduler.py`),
- request and reply over RabbitMQ (`backend/shared/rabbitmq_rpc.py`, `backend/shared/rabbitmq_base.py`),
- the bounded executor, the circuit breaker, the rate limiter and the idempotency cache of `backend/shared`,
- the embedding job pipeline with its retry policy,
- the incremental repository index (`scripts/ai/brain_core.py`),
- the keyset pagination of audit events and the reciprocal rank fusion.

Concurrent components are labelled step machines: a `State`, a `Label` per atomic step (a critical
section, a thread step, a delivery, a cancellation, a clock reading), `Enabled`, `Apply` and `Run`.
Properties are stated over every run from the initial state. Where the source is an object whose
methods change its fields, a class holds the same fields, and each method is proved to perform exactly
its step of the machine. Sequential code is modelled as functions, and as methods with loops proved
against them.

Files: `Scheduler*.dfy` (model, composition, placement, order, worker accounting, results, waiting,
delivery, starvation, draining, the value of `shutdown`, code), `Rpc*.dfy` (model, invariant, theorems,
close, delivery, code), `Executor.dfy` and `ExecutorResults.dfy`, `Breaker.dfy` and `BreakerTrace.dfy`,
`TokenBucket.dfy`, `RateLimiter.dfy`,
`CleanupExact.dfy`, `RetryHeader.dfy`, `FailedPolls.dfy`, `LimiterWindow.dfy`,
`JobPipeline.dfy` and `JobOutcome.dfy`, `BrainIndex.dfy`, `AuditPages.dfy`, `Dedup.dfy`, `RankFusion.dfy`
and `RankScores.dfy`, and the shared
`Sorting.dfy` and `Arithmetic.dfy`. `dafny verify dfyconfig.toml` checks everything.

## What does not hold as one might expect

Some intended properties fail in corners. Each has a lemma with the failing case and, next to it, the
exact condition:

- With one-item batches the background floor is the whole batch, and ingestion can starve a live
  query forever: live waiting is bounded if and only if `max_batch_size >= 2` or
  `max_pending_items <= 2` (`SchedulerStarvation.LiveWaitingExactly`).
- The live reservation holds for `max_pending_items >= 2` and is void for 1
  (`SchedulerResults.LiveReservationHolds`, `LiveReservationVoid`).
- A full ingestion batch can be refused as oversized although the constructor accepts the settings
  (`SchedulerResults.IngestionBatchFits`).
- The docstring of `shutdown` says the result is True when every accepted item was inferred. The code
  returns True whenever no worker is left; exactly when it has failed somebody nevertheless is
  `SchedulerReturn.ReturnedValueExactly`, with `NeverStartedShutdown`, `AbortingShutdown`,
  `DrainingAfterAbort` and `SecondShutdown` as inputs.
- An RPC caller that is cancelled again while its cleanup waits loses its permit; all permits return
  if and only if that never happens (`RpcTheorems.PermitsReturnExactly`, `CancelledCleanupLeaks`).
- `close` of the RPC client does not take the resource lock: calls that are connecting at that moment,
  and only those, can register afterwards (`RpcClose.OnlyConnectingCallsRegisterLate`,
  `LateRegistrationHappens`).
- `_queued` of the executor is exact if and only if no shutdown timed out while work was in the pool's queue
  (`Executor.SnapshotExactly`, `TimedOutShutdownDrifts`).
- The breaker can be stuck half-open if and only if `success_threshold > half_open_max_calls`
  (`Breaker.StuckExactly`).
- Not only probes close the breaker: only its own calls count in a half-open period if and only if no
  earlier call is still running (`Breaker.OnlyProbesCountExactly`, `StaleSuccessesClose`).
- With `cleanup_interval < burst_multiplier` the rate limiter forgets an address before its bucket has
  refilled (`CleanupExact.InvisibleExactly`).
- The wait `check` returns, and the `Retry-After` header made from it, speak for the bucket that
  refused only: a lone client that waits is allowed if and only if the other bucket grants by then
  (`RetryHeader.RetryExactly`, `HeaderExactly`, `HeaderTooEarly`). Rates of at least one per second make
  the header safe (`FastRatesAreHonest`, `HonestExactly`).
- Failed polls postpone nothing in one bucket, but a poll refused by the address bucket has taken a
  global token; exactly when that postpones the next success is `FailedPolls.PostponedExactly`, with
  `PollsPostpone` as a run.
- An incremental index sync reflects the tree if and only if no file changed its text behind its size
  and modification time (`BrainIndex.IncrementalExactly`).

## Model

| member | source | states |
|---|---|---|
| `SchedulerResults.EncodeRefinesMap` | backend/embedding/app/services/inference_scheduler.py:294-346 | For every interleaving after its admission, an `encode` call that returns yields exactly the model's vector of each of its texts in submission order; a call still collecting holds a prefix of that |
| `SchedulerDelivery.PassDelivers` | backend/embedding/app/services/inference_scheduler.py:509-571 | From any reachable state in which a forward pass ends, over any interleaving: each item of its batch is still running or was told exactly how it ended, its own vector, the model error or the count mismatch; and the first `n` are told once the worker has settled `n` |
| `SchedulerDelivery.PassCompletes` | backend/embedding/app/services/inference_scheduler.py:509-571 | After a forward pass one settle per item is possible and leaves every item of the batch told |
| `SchedulerDelivery.EncodeReturns` | backend/embedding/app/services/inference_scheduler.py:294-346 | A call that has not raised and whose items all ran in passes that returned vectors can collect the rest and returns the vector of each of its texts in order |
| `SchedulerDelivery.RaisedForGood` | backend/embedding/app/services/inference_scheduler.py:339-346 | A call that has raised never returns, whatever its items are told later |
| `SchedulerDelivery.CancelExactly` | backend/embedding/app/services/inference_scheduler.py:339-346 | Cancelling a queued item keeps it out of every batch for good; cancelling one that has joined a batch or was told changes nothing |
| `SchedulerResults.ConservationAndOrder` | backend/embedding/app/services/inference_scheduler.py:474-592 | In every reachable state an admitted item is in exactly one of queue, batch or leftover while unsettled and in none afterwards; it joins at most one batch; and the items of a class that ran are its admission order minus the cancelled ones |
| `SchedulerResults.SettledOnce` | backend/embedding/app/services/inference_scheduler.py:632-646 | A settled future never changes again in any run |
| `SchedulerResults.InvReachable` | backend/embedding/app/services/inference_scheduler.py:365-592 | The whole scheduler invariant (placement, order, counters, limits, wake-ups, results) holds in every reachable state |
| `SchedulerPlacement.PlacedStep` | backend/embedding/app/services/inference_scheduler.py:365-592 | Every step of every caller and worker keeps each item in exactly one place |
| `SchedulerOrder.OrderedStep` | backend/embedding/app/services/inference_scheduler.py:474-507 | Every step keeps both classes served in admission order |
| `SchedulerResults.WorkerAccounting` | backend/embedding/app/services/inference_scheduler.py:405-472 | `_busy_workers` and `_background_inflight` equal the workers running a batch, and those running one with background, in every reachable state; the latter never exceeds its bound, so the other workers stay free of background |
| `SchedulerWorkers.AccountedStep` | backend/embedding/app/services/inference_scheduler.py:405-472 | Every step keeps both counters exact although the lock is dropped during the batching window |
| `SchedulerWorkers.LiveOnlyBatch` | backend/embedding/app/services/inference_scheduler.py:467-496 | A composition made without a free background slot carries no background item |
| `SchedulerWorkers.WithinLimitsStep` | backend/embedding/app/services/inference_scheduler.py:365-399 | Total pending never exceeds `max_pending_items` and background pending never exceeds its reduced limit |
| `SchedulerWorkers.WakefulStep` | backend/embedding/app/services/inference_scheduler.py:405-472 | No step leaves a parked worker unnotified when there is something for it to do |
| `SchedulerResults.LiveReservationHolds` | backend/embedding/app/services/inference_scheduler.py:365-399 | With `max_pending_items >= 2`, live items that fit the reserve together with the pending live ones are admitted at once, whatever background has queued |
| `SchedulerResults.LiveReservationVoid` | backend/embedding/app/services/inference_scheduler.py:169-175 | With `max_pending_items == 1` one background item blocks live although the reserve is one |
| `SchedulerResults.IngestionBatchFits` | backend/embedding/app/services/inference_scheduler.py:365-399 | A full ingestion batch passes the oversize check if and only if `max_pending_items >= 2 * max_batch_size - 1` |
| `SchedulerDelivery.AdmitsExactly` | backend/embedding/app/services/inference_scheduler.py:365-399 | Live is admitted up to `max_pending_items` in all; background up to that minus the smaller of `max_batch_size` and half of it, and in any case a single item |
| `SchedulerDelivery.SaturatedQuarter` | backend/embedding/app/services/inference_scheduler.py:169-175 | With plenty of both classes waiting, a batch with a background slot is a quarter background, rounded down but at least one, and live otherwise |
| `SchedulerCompose.ComposeIsWorkConserving` | backend/embedding/app/services/inference_scheduler.py:474-507 | A composition takes exactly `min(max_batch_size, live + background)` uncancelled items when a background slot is free, otherwise `min(max_batch_size, live)` |
| `SchedulerCompose.ComposeReservations` | backend/embedding/app/services/inference_scheduler.py:474-496 | Live always gets its `max_batch_size - background_floor` slots, and background its floor whenever a slot is free |
| `SchedulerCompose.BatchOrder` | backend/embedding/app/services/inference_scheduler.py:498-507 | Restricted to a class, a batch is the uncancelled prefix popped from that class's queue |
| `SchedulerCompose.CutFills` | backend/embedding/app/services/inference_scheduler.py:498-507 | Popping for a capacity fills the smaller of the capacity and the uncancelled entries; cancelled ones use no slot |
| `SchedulerWaiting.BoundedWaiting` | backend/embedding/app/services/inference_scheduler.py:474-507 | An uncancelled item with p of its class ahead leaves the queue within `p / slots + 1` compositions that count for its class, whatever arrives later |
| `SchedulerWaiting.WaitsRun` | backend/embedding/app/services/inference_scheduler.py:474-507 | Over any run, every composition that counts takes `slots` items from ahead of an item that keeps waiting |
| `SchedulerStarvation.LiveWaitingExactly` | backend/embedding/app/services/inference_scheduler.py:169-175 | Live waiting is bounded if and only if a batch holds two items or at most two can be pending |
| `SchedulerStarvation.StarveCycle` | backend/embedding/app/services/inference_scheduler.py:474-496 | With one-item batches and three pending items, a reachable cycle lets one more background item pass a waiting live item |
| `SchedulerShutdown.NeverStuck` | backend/embedding/app/services/inference_scheduler.py:405-472 | In every reachable state with pending items, a started scheduler that is open or told to drain, also one resumed by a draining shutdown after an aborting one, has a worker running a batch, or something to collect and a worker able to collect it now, if and only if some worker has not exited; all can exit over pending items only after a shutdown asked not to drain |
| `SchedulerShutdown.DrainEnds` | backend/embedding/app/services/inference_scheduler.py:233-257 | From every reachable closed state of a started scheduler the workers' own steps alone lead to every worker having exited |
| `SchedulerShutdown.DrainTerminates` | backend/embedding/app/services/inference_scheduler.py:405-423 | Every worker step lowers a well-founded rank, so no worker spins and no schedule of worker steps goes on forever |
| `SchedulerShutdown.DrainProgress` | backend/embedding/app/services/inference_scheduler.py:233-257 | After a close, as long as a worker has not exited, some worker can step |
| `SchedulerReturn.ReturnedValueExactly` | backend/embedding/app/services/inference_scheduler.py:233-257 | For every interleaving of the joins and of the failing loop with all other steps: the value of `shutdown` is what its joins saw, since the pending count it reads is always zero; it fails exactly the items that were queued and uncancelled when it emptied the queues and were not cancelled before their turn; and if it returns True it has failed somebody if and only if there is such an item and the scheduler was not started or some shutdown had asked not to drain |
| `SchedulerReturn.DrainedShutdown` | backend/embedding/app/services/inference_scheduler.py:233-257 | However all workers came to exit, an accepted item was inferred exactly when it was not cancelled, not taken by any shutdown, and is not still queued; only an abort leaves items queued, and only items taken by a shutdown are failed |
| `SchedulerReturn.EmptyAfterShutdown` | backend/embedding/app/services/inference_scheduler.py:583-592 | Once the queues were emptied after a close they stay empty in every later state |
| `SchedulerReturn.Ends` | backend/embedding/app/services/inference_scheduler.py:583-592 | Uninterrupted, the failing loop fails exactly the queued items, each once, and leaves the leftovers of other shutdowns alone |
| `SchedulerReturn.LeftRun` | backend/embedding/app/services/inference_scheduler.py:583-592 | However failing loops interleave with everything else, a left-over item that is gone was failed, unless its caller had cancelled it in time |
| `SchedulerReturn.ShutdownAlone` | backend/embedding/app/services/inference_scheduler.py:233-257 | From every state without live threads an uninterrupted shutdown ends, returns True and fails exactly what is queued |
| `SchedulerReturn.NeverStartedShutdown` | backend/embedding/app/services/inference_scheduler.py:245-257 | For every configuration a shutdown of a never-started scheduler returns True and fails an accepted item |
| `SchedulerReturn.AbortingShutdown` | backend/embedding/app/services/inference_scheduler.py:245-257 | So does `shutdown(drain=False)` of a started scheduler |
| `SchedulerReturn.DrainingAfterAbort` | backend/embedding/app/services/inference_scheduler.py:240-257 | So does `shutdown(drain=True)` after another shutdown asked not to drain |
| `SchedulerReturn.SecondShutdown` | backend/embedding/app/services/inference_scheduler.py:233-257 | A second `shutdown(drain=True)` returns True although the first one failed an accepted item that was never inferred, and nobody asked not to drain |
| `SchedulerCode.EmbeddingScheduler.constructor` | backend/embedding/app/services/inference_scheduler.py:149-190 | A new scheduler is the machine's initial state |
| `SchedulerCode.EmbeddingScheduler.TryAdmit` | backend/embedding/app/services/inference_scheduler.py:365-393 | One pass of the admission loop admits exactly when the machine's admission is enabled, performs that step, and otherwise reports oversized, closed, saturated or wait, each exactly in its case |
| `SchedulerCode.PopInto` | backend/embedding/app/services/inference_scheduler.py:498-507 | The popping loop computes `TakeOf`: claims uncancelled entries up to the capacity and drops cancelled ones |
| `SchedulerCode.TakenAtOnce` | backend/embedding/app/services/inference_scheduler.py:498-507 | Popping one by one equals cutting one prefix of the queue, claiming it, and appending its uncancelled part |
| `SchedulerCode.FillBatch` | backend/embedding/app/services/inference_scheduler.py:474-496 | Live first, background while a slot is free, live again: the three takes in sequence |
| `SchedulerCode.TakesCompose` | backend/embedding/app/services/inference_scheduler.py:474-507 | The three takes together are the machine's single composition step |
| `SchedulerCode.EmbeddingScheduler.ComposeLocked` | backend/embedding/app/services/inference_scheduler.py:425-496 | Composing and claiming capacity under one lock is exactly the machine's step, and returns its batch |
| `SchedulerCode.AppendAll` | backend/embedding/app/services/inference_scheduler.py:385-393 | The appending loop adds one item, one pending future and one fresh id per text, in order |
| `SchedulerCode.EmbeddingScheduler.SettleBatch` | backend/embedding/app/services/inference_scheduler.py:509-566 | Completing a batch is one settle step per item, and each future ends with its own outcome |
| `SchedulerCode.EmbeddingScheduler.SettleNext` | backend/embedding/app/services/inference_scheduler.py:632-646 | Settling one future is exactly the machine's settle step |
| `SchedulerCode.EmbeddingScheduler.FailRemaining` | backend/embedding/app/services/inference_scheduler.py:583-592 | Both queues are emptied in one step and handed over as leftovers, live before background |
| `RpcTheorems.ReplyIsOwn` | backend/shared/rabbitmq_rpc.py:153-253 | Over all clients, servers, timeouts, reorderings and duplicate or late deliveries, a call that returns a payload returns a trusted reply that a server published for that very call's request |
| `RpcDelivery.FirstReplyDecides` | backend/shared/rabbitmq_rpc.py:153-306 | Over any run that does not disturb a waiting call: until a trusted reply to it is delivered it waits, and then the first one decides; from every later state its own bounded steps end it by returning exactly that body |
| `RpcDelivery.DeliveredReplyReturns` | backend/shared/rabbitmq_rpc.py:279-306 | Delivering a trusted reply published for a waiting call leads by its own bounded steps to the call having returned that body |
| `RpcDelivery.DisturbedCallRaises` | backend/shared/rabbitmq_rpc.py:199-306 | A timeout, cancellation, failed publish, close, untrusted message or full stream buffer makes a waiting call raise |
| `RpcDelivery.RoundTrip` | backend/shared/rabbitmq_rpc.py:153-306 | From every reachable state and for every body, a queued call of an open client with a free permit can connect, register, publish, be served and return that body |
| `RpcDelivery.StreamIsDrainedFirst` | backend/shared/rabbitmq_rpc.py:230-239 | A call with a stream returns its reply only after it has waited for the stream |
| `RpcTheorems.EndedStays` | backend/shared/rabbitmq_rpc.py:279-306 | The outcome of an ended call never changes |
| `RpcTheorems.WaitersAndPermits` | backend/shared/rabbitmq_rpc.py:153-253 | Every registered waiter belongs to an unfinished call, waiters never exceed `max(1, max_inflight)`, and free, held and lost permits always add up to the limit |
| `RpcTheorems.PermitsReturnExactly` | backend/shared/rabbitmq_rpc.py:240-253 | With no call left, all permits are back if and only if no caller was cancelled again during its cleanup |
| `RpcTheorems.LeakedClientStalls` | backend/shared/rabbitmq_rpc.py:153-253 | A client that lost all permits never starts another call |
| `RpcTheorems.CancelledCleanupLeaks` | backend/shared/rabbitmq_rpc.py:240-253 | For every client there is a run, with its only call timed out and cancelled again during cleanup, after which no call is left and one permit is missing |
| `RpcClose.CloseEndsRegisteredCalls` | backend/shared/rabbitmq_rpc.py:321-350 | In every state of every run after a close, a call registered at the close does not hang, and a bounded number of its own steps (no reply, timeout or cancellation among them) ends it; it raises, unless its reply had been set before the close, and then it returns nothing but that reply |
| `RpcClose.EndsAloneExactly` | backend/shared/rabbitmq_rpc.py:188-253 | A registered call can end by its own steps if and only if it is not waiting for an unset future, so without a close it would need a reply, a timeout or a cancellation |
| `RpcClose.AnyStep` | backend/shared/rabbitmq_rpc.py:153-350 | No step of anybody moves such a call away from its end, makes it hang again, or changes what it will return into anything but an error |
| `RpcClose.OnlyConnectingCallsRegisterLate` | backend/shared/rabbitmq_rpc.py:79-131 | Until the client is reopened, a call registered after a close was registered or connecting at the close |
| `RpcClose.ConnectingCallRegistersAfterClose` | backend/shared/rabbitmq_rpc.py:321-350 | Every call connecting at the close can still register a waiter in the closed client |
| `RpcClose.LateRegistrationHappens` | backend/shared/rabbitmq_rpc.py:79-131 | For every client there is a run in which a call is connecting at the close and registers afterwards |
| `RpcDelivery.ClosedExactly` | backend/shared/rabbitmq_rpc.py:74-94 | A client is closed exactly from a `close` to the next `connect`, and refuses calls before they connect exactly then |
| `RpcDelivery.ConnectedExactly` | backend/shared/rabbitmq_rpc.py:79-131 | A client is connected exactly from a registration to the next disconnection, and only a disconnected one makes calls take the resource lock |
| `RpcDelivery.TopologyIsReused` | backend/shared/rabbitmq_rpc.py:79-131 | After a call has registered, and until a disconnection, every other call of the open client registers at once |
| `RpcProofs.InvStep` | backend/shared/rabbitmq_rpc.py:153-350 | Every step keeps permits, correlation ids, waiters, traffic, answers and listeners consistent |
| `RpcProofs.DeliveredToOwnCall` | backend/shared/rabbitmq_rpc.py:279-306 | A message that reaches a waiter was published for that waiter's own call |
| `RpcCode.RpcClient.OnMessage` | backend/shared/rabbitmq_rpc.py:279-306 | Routing one delivery is exactly the machine's deliver step |
| `RpcCode.RpcClient.FinishTimedOut` | backend/shared/rabbitmq_rpc.py:240-253 | The cleanup of a timed-out call removes its own waiter, returns its permit and ends it |
| `RpcCode.RpcClient.Close` | backend/shared/rabbitmq_rpc.py:321-350 | `close` fails every outstanding waiter and empties the dictionary in one step |
| `RpcCode.FailAll` | backend/shared/rabbitmq_rpc.py:324-330 | The loop over the waiters fails exactly the unset futures among them, in any order |
| `RpcCode.RpcConsumer.Dispatch` | backend/shared/rabbitmq_base.py:118-263 | Nothing is published but the one reply that is due, the handler's answer, the busy reply or the authentication error, to the requester under its correlation id; a delivery is acknowledged if and only if it was understood, its handler did not crash, and its due reply went out or was an answer without a channel; a rejected delivery published nothing |
| `Executor.SaturatedPoolAdmitsNobody` | backend/shared/bounded_executor.py:91-98 | A saturated pool admits no caller |
| `Executor.CapacityConserved` | backend/shared/bounded_executor.py:82-137 | Over every interleaving, free permits plus admitted, uncompleted work equals `max_workers + queue_bound`; everything in the pool's queue or on a thread holds a permit; `_active` counts exactly the running callables, at most `max_workers` |
| `Executor.TimedOutShutdownDrifts` | backend/shared/bounded_executor.py:150-170 | One queued task under a timed-out shutdown leaves `_queued` at one with nothing queued |
| `Executor.CancellationKeepsPermit` | backend/shared/bounded_executor.py:132-137 | From any reachable state in which a submission is in the pool's queue or on a thread, no run gives its permit back before its thread has left it, whoever is cancelled meanwhile; only one still in the queue can be dropped, by a shutdown that times out |
| `Executor.UnshieldedCancelReleases` | backend/shared/bounded_executor.py:135-137 | It is the shield that does it: were the pool's future cancelled with the caller, the permit of a running callable could be released at once |
| `Executor.SnapshotExactly` | backend/shared/bounded_executor.py:139-184 | After any run `_queued` equals the admitted work that has not begun, in the pool's queue or just taken by a thread, if and only if no shutdown timed out while work was in the queue; `_active` is exact in every run |
| `Executor.InvStep` | backend/shared/bounded_executor.py:82-197 | Every loop and thread step keeps the executor's invariant |
| `ExecutorResults.CallerOutcomes` | backend/shared/bounded_executor.py:132-137 | A caller has a result only if its work was done, and is cancelled only if it was cancelled itself or a shutdown dropped its work |
| `ExecutorResults.AdmittedWorkFinishes` | backend/shared/bounded_executor.py:82-197 | From every reachable state admitted work that was not dropped is finished by at most seven steps of its own once a thread is free: its permit returns, and a caller that still waits gets the result |
| `ExecutorResults.AdmitsExactly` | backend/shared/bounded_executor.py:91-106 | A waiting caller is admitted exactly while no shutdown has begun and fewer than `max_workers + queue_bound` submissions hold a permit |
| `ExecutorResults.ClosedAdmitsNobody` | backend/shared/bounded_executor.py:100-104 | Once a shutdown has begun nobody is admitted any more |
| `ExecutorResults.TurnedAway` | backend/shared/bounded_executor.py:91-126 | A caller that timed out, found the executor closed or was refused by the pool holds no permit and never runs |
| `Executor.BoundedExecutor.Enter` | backend/shared/bounded_executor.py:100-126 | The admission part of `run` rejects when closed, undoes itself when the pool refuses, and otherwise admits |
| `Executor.BoundedExecutor.BeginExecute` | backend/shared/bounded_executor.py:181-184 | The locked prologue of `_execute` is the machine's start step |
| `Executor.BoundedExecutor.EndExecute` | backend/shared/bounded_executor.py:190-193 | The `finally` block of `_execute` is the machine's stop step, whatever happened in between |
| `Executor.BoundedExecutor.OnCompleted` | backend/shared/bounded_executor.py:195-197 | Completion returns exactly one permit |
| `Breaker.Accounting` | backend/shared/circuit_breaker.py:128-204 | Over all interleavings with delayed results, a closed breaker is below its failure threshold and total calls are rejected, succeeded, failed or in flight |
| `BreakerTrace.TraceDecides` | backend/shared/circuit_breaker.py:128-240 | In every run the mode is the one that the labels since the last transition give (failures in a row, elapsed time, probes and successes), and the next call starts exactly if they let it through |
| `BreakerTrace.OpensExactly` | backend/shared/circuit_breaker.py:175-204 | A closed circuit opens exactly with the `failure_threshold`-th failure since its last success or its closing, at that moment, and with nothing else |
| `BreakerTrace.ProbesDecide` | backend/shared/circuit_breaker.py:156-204 | A probing circuit opens exactly with the first failure, closes exactly with the `success_threshold`-th success, and lets exactly `half_open_max_calls` calls through |
| `BreakerTrace.TotalsCount` | backend/shared/circuit_breaker.py:143-197 | The metrics count every call, success and failure of the run once |
| `Breaker.OpenFailsFast` | backend/shared/circuit_breaker.py:128-173 | From an open breaker, any run without a reset that stays below `opened_at + recovery_timeout` leaves it open, starts nothing and rejects every call, whatever late results and state reads arrive; the next call starts if and only if the timeout has passed and probes are allowed |
| `Breaker.ProbesBounded` | backend/shared/circuit_breaker.py:128-173 | At most `half_open_max_calls` calls start in a half-open period, for as long as the run goes on |
| `Breaker.ProbesLeaveRoom` | backend/shared/circuit_breaker.py:175-240 | With `success_threshold <= half_open_max_calls`, a half-open breaker whose probes have returned has room for a probe |
| `Breaker.StuckExactly` | backend/shared/circuit_breaker.py:128-240 | A stuck half-open breaker is reachable if and only if `success_threshold > half_open_max_calls` |
| `Breaker.StuckForever` | backend/shared/circuit_breaker.py:128-245 | A stuck breaker rejects every call until it is reset by hand |
| `Breaker.OnlyProbesCountExactly` | backend/shared/circuit_breaker.py:175-186 | From any reachable half-open state, in all runs only calls of that half-open period are counted as its successes if and only if no call of an earlier period is still running |
| `Breaker.ClosedByProbes` | backend/shared/circuit_breaker.py:175-186 | If a half-open period begins with no earlier call running, `_success_count` is the number of its own returned calls for as long as it lasts |
| `Breaker.StaleSuccessesClose` | backend/shared/circuit_breaker.py:175-186 | For every valid configuration a half-open breaker is reachable that late successes of earlier calls close without a single probe having started |
| `Breaker.InvStep` | backend/shared/circuit_breaker.py:101-245 | Every call, result, state read and reset keeps the breaker's invariant |
| `Breaker.CircuitBreaker.TransitionTo` | backend/shared/circuit_breaker.py:212-240 | A transition clears the half-open counters, the failures on closing, and stamps the opening time |
| `Breaker.CircuitBreaker.TryStart` | backend/shared/circuit_breaker.py:143-164 | The locked prologue performs the machine's call step; it refuses exactly when it counts a rejection |
| `Breaker.CircuitBreaker.OnSuccess` | backend/shared/circuit_breaker.py:175-186 | Recording a success is the machine's success step |
| `Breaker.CircuitBreaker.OnFailure` | backend/shared/circuit_breaker.py:188-204 | Recording a failure is the machine's failure step |
| `Breaker.CircuitBreaker.ReadMode` | backend/shared/circuit_breaker.py:101-108 | Reading the state may itself start a half-open period |
| `TokenBucket.WindowBound` | backend/shared/rate_limiter.py:52-73 | In every run and every window the tokens granted are at most `capacity + rate * length` |
| `TokenBucket.WaitIsExact` | backend/shared/rate_limiter.py:86-92 | For one bucket the returned wait is the exact earliest time at which a lone retry succeeds |
| `TokenBucket.FailedPollsDoNotPostpone` | backend/shared/rate_limiter.py:52-92 | For one bucket, any number of failed polls before that time leaves the retry granted at that time |
| `TokenBucket.SmallBucketNeverGrants` | backend/shared/rate_limiter.py:52-92 | A capacity below one token never grants a request |
| `TokenBucket.RefusedBucketGrants` | backend/shared/rate_limiter.py:86-92 | The bucket that refused grants a lone poll once the delay made from its wait is over, which is at most one second later than the wait |
| `TokenBucket.HeaderExistsExactly` | backend/shared/rate_limiter.py:289-292 | The header can be computed if and only if the bucket refills or holds a token |
| `TokenBucket.Tokens.TryConsume` | backend/shared/rate_limiter.py:52-73 | Consuming refills first, grants exactly when enough tokens are there, and takes them only then |
| `RetryHeader.RetryExactly` | backend/shared/rate_limiter.py:131-163 | After `check` refused with a wait, a lone retry is allowed if and only if the wait is over (or the address was forgotten, which an interval of at least the burst rules out before) and the other of the two buckets grants at that time |
| `RetryHeader.HeaderExactly` | backend/shared/rate_limiter.py:131-292 | In every reachable limiter whose buckets refill and can hold a token, a refused lone client that waits out `Retry-After` (section 10.2.3 of RFC 9110) is allowed if and only if the bucket that did not refuse it grants then |
| `RetryHeader.FastRatesAreHonest` | backend/shared/rate_limiter.py:131-292 | With both rates at least one per second the header is never too early |
| `RetryHeader.HonestExactly` | backend/shared/rate_limiter.py:131-292 | When the global bucket refills faster than one per second and has room for one address, the header is never too early if and only if `per_ip_rate >= 1` |
| `RetryHeader.HeaderTooEarly` | backend/shared/rate_limiter.py:131-292 | A run in which a lone client is told to come back after two seconds and is then refused by its own bucket |
| `FailedPolls.AfterFailedPolls` | backend/shared/rate_limiter.py:131-163 | After any failed polls of a client, its check is allowed if and only if its own bucket grants, as without them, and the global bucket grants after serving them |
| `FailedPolls.PostponedExactly` | backend/shared/rate_limiter.py:131-163 | Failed polls postpone an otherwise allowed check if and only if the global tokens they took leave the global bucket below one; below its capacity, if and only if fewer than `taken + 1` tokens would be there without them |
| `FailedPolls.PollsPostpone` | backend/shared/rate_limiter.py:131-163 | A run in which a lone client polls four times just before its bucket is ready and is refused at that time, though it would have been allowed |
| `LimiterWindow.LimiterWindowBound` | backend/shared/rate_limiter.py:131-194 | In every run and every window the limiter allows at most `global_rate * (burst + length)` requests in all, and at most `per_ip_rate * (burst + length)` of one address when `cleanup_interval >= burst_multiplier`, across all cleanups |
| `LimiterWindow.StepLeft` | backend/shared/rate_limiter.py:131-194 | Each operation lowers what may still be allowed in a window by what it allowed there |
| `RateLimiter.OkStep` | backend/shared/rate_limiter.py:131-194 | Every operation keeps both kinds of bucket within their capacity and no bucket ahead of the last sight of its address |
| `RateLimiter.CleanupIsInvisible` | backend/shared/rate_limiter.py:131-194 | With a positive rate and `cleanup_interval >= burst_multiplier`, every sequence of checks is answered, waits and remaining tokens included, as by a limiter that never deletes a bucket |
| `RateLimiter.SameStep` | backend/shared/rate_limiter.py:131-194 | One check keeps the cleaning limiter and the reference indistinguishable and answers alike |
| `RateLimiter.ForgetsExactly` | backend/shared/rate_limiter.py:165-194 | A check forgets exactly the addresses unseen for longer than the interval when a cleanup is due, and nobody otherwise |
| `RateLimiter.RemainingExactly` | backend/shared/rate_limiter.py:298-301 | The remaining tokens read after a response are exactly what the address could still take, and reading takes none |
| `CleanupExact.InvisibleExactly` | backend/shared/rate_limiter.py:131-194 | When an address can be served and the global bucket leaves room, cleanup cannot be observed if and only if `cleanup_interval >= burst_multiplier` |
| `CleanupExact.ShortIntervalShows` | backend/shared/rate_limiter.py:176-194 | For every shorter interval some sequence of checks is answered differently than by a limiter that never deletes a bucket |
| `RateLimiter.IpLimiter.MaybeCleanup` | backend/shared/rate_limiter.py:176-194 | Deleting the stale addresses one by one is the cleanup step |
| `RateLimiter.IpLimiter.CheckIp` | backend/shared/rate_limiter.py:131-174 | `check` performs the limiter's step and returns its answer |
| `RateLimiter.DeleteAll` | backend/shared/rate_limiter.py:186-192 | The deletion loop removes exactly the stale addresses from both dictionaries |
| `JobPipeline.FinishedAttempt` | backend/embedding/app/services/embedding_job_service.py:102-213 | A finished attempt's upserts concatenate to the eligible chunks in order, each with its own vector, in `ceil(eligible / batch_size)` batches of at most `batch_size`, followed by one completion that counts them and the stage update; embedded plus skipped is what was requested |
| `JobPipeline.BatchesUpsert` | backend/embedding/app/services/embedding_job_service.py:161-204 | Any attempt, also a failing one, publishes a prefix of the eligible chunks with their own vectors |
| `JobPipeline.BatchesFinish` | backend/embedding/app/services/embedding_job_service.py:142-213 | From any position, a finishing attempt publishes `ceil(rest / batch_size)` batches, the completion and the stage update |
| `JobPipeline.CompletionComesLast` | backend/embedding/app/services/embedding_job_publisher.py:152-175 | A completion event follows all batches of its own attempt, and no batch follows it |
| `JobPipeline.RunsBounded` | backend/shared/retry.py:113-152 | The function runs at most `max(1, kafka_max_retries)` times, and a dead-lettered message reports exactly the number of runs |
| `JobPipeline.RetriesAreIdempotent` | README.md:155-156 | After any retryable failures, the upserts of a message that succeeds, applied as puts keyed by chunk id, leave the store of one clean attempt |
| `JobOutcome.OnlyRightfulChunks` | backend/embedding/app/services/embedding_job_service.py:102-256 | However a message fails and is retried, nothing is published but its own allowed, unremoved chunks, of its file, document and single source, with the vector of the prefixed text |
| `JobOutcome.StoreAfterSuccess` | backend/embedding/app/services/embedding_job_service.py:102-256 | After a success the store holds such a chunk under every publishable id and is unchanged under every other id |
| `JobOutcome.AttemptEndsExactly` | backend/embedding/app/services/embedding_job_service.py:102-238 | How many batches an attempt publishes and how it ends, by availability, coherence of the job, its first batch that does not go out, and the completion |
| `JobOutcome.MessageEndsExactly` | backend/embedding/app/services/embedding_job_service.py:74-100 | A message runs until its first attempt that is not retryable, at most `max(1, kafka_max_retries)` times, and succeeds exactly if that attempt is done |
| `JobOutcome.AnnouncedDimensions` | backend/embedding/app/services/embedding_job_service.py:158-212 | A completion announces the dimensions of the model, or zero when no chunk was publishable |
| `JobPipeline.SplitChunks` | backend/embedding/app/services/embedding_job_service.py:240-251 | The loop computes both order-preserving filters: increasing positions give both lists, every position is in exactly one, and in the first exactly when retrieval is allowed and the chunk was not removed |
| `JobPipeline.Validate` | backend/embedding/app/services/embedding_job_service.py:215-238 | A job passes if and only if it parses, all chunks name its file and document, and they share one source |
| `JobPipeline.PublishBatches` | backend/embedding/app/services/embedding_job_service.py:142-213 | The batch loop publishes exactly the specified events for every fate of every batch |
| `JobPipeline.ProcessJobOnce` | backend/embedding/app/services/embedding_job_service.py:102-213 | One attempt checks availability, then the job, then publishes |
| `JobPipeline.ProcessMessage` | backend/embedding/app/services/embedding_job_service.py:74-100 | The retry loop ends as specified: succeeded, or dead-lettered with its count |
| `BrainIndex.IncrementalEqualsRebuild` | scripts/ai/brain_core.py:397-472 | After any history of incremental and full syncs over any trees, the files, chunks, full-text rows and edges are those of a full rebuild into an empty database |
| `BrainIndex.SyncIndexes` | scripts/ai/brain_core.py:397-472 | A sync turns an index of the previous tree into an index of the current one, whatever order paths come in, and never violates the chunk primary key |
| `BrainIndex.IncrementalExactly` | scripts/ai/brain_core.py:420-428 | An incremental sync indexes the tree as sizes and times show it, which is the tree itself if and only if no text changed behind them |
| `BrainIndex.SecondSyncIsNoOp` | scripts/ai/brain_core.py:420-428 | A second sync of the same tree changes nothing, not even row order |
| `BrainIndex.PathSyncs` | scripts/ai/brain_core.py:416-450 | Syncing one path leaves it indexed with its current text, its row current, and every other path as it was |
| `BrainIndex.SameTables` | scripts/ai/brain_core.py:397-472 | Two indexes of the same tree hold the same rows with the same multiplicity |
| `BrainIndex.ContentsExactly` | scripts/ai/brain_core.py:397-472 | Row by row: a chunk, edge or full-text row is in an index exactly if its path is in the tree and the chunker makes it from the current text; the files table describes exactly the tree |
| `BrainIndex.RewritesExactly` | scripts/ai/brain_core.py:420-450 | A path is chunked again exactly if the sync is full, the path is new, or its stat and its text both changed; otherwise no row moves |
| `BrainIndex.NothingStaleExactly` | scripts/ai/brain_core.py:480-504 | After a sync nothing is stale; and nothing is stale if and only if the files table lists exactly the current paths with their sizes and times |
| `BrainIndex.StalePaths` | scripts/ai/brain_core.py:480-504 | Reports only stale paths, none twice, all of them when below the limit, and never more than the limit (or one) |
| `BrainIndex.SyncPaths` | scripts/ai/brain_core.py:411-450 | The loop over the current paths computes the specified tables and counts exactly the files chunked again |
| `BrainIndex.DeleteGone` | scripts/ai/brain_core.py:406-409 | The loop over the gone paths removes exactly their rows from every table |
| `BrainIndex.Brain.SyncTree` | scripts/ai/brain_core.py:397-472 | A sync commits the specified tables, or fails on the primary key and leaves the database as it was; changed and skipped files add up to all |
| `AuditPages.WalkIsComplete` | backend/files/app/db/_audit.py:32-70 | Following `next_cursor` to exhaustion returns every event of the first request's collection exactly once, strictly descending by creation time and id, whatever is inserted between requests |
| `AuditPages.FixedWalk` | backend/files/app/db/_audit.py:32-70 | On a fixed collection the pages concatenate to the whole sorted list, and the walk ends with request `n / limit + 1`, neither earlier nor later |
| `AuditPages.PageIsNewest` | backend/files/app/db/_audit.py:49-70 | A page is strictly descending, holds only matches, leaves out only older ones, and has no cursor only if it leaves out none |
| `AuditPages.NewestFirst` | backend/files/app/db/_audit.py:49-70 | Any answer holds only events of the file, creation times never increase along it, equal times are ordered by strictly decreasing id, and all of it lies behind the cursor's event |
| `AuditPages.UnknownCursorRestarts` | backend/files/app/db/_audit.py:50-59 | An empty cursor, or one naming no visible event, starts over at the newest page |
| `AuditPages.AuditCollection.InsertAuditEvent` | backend/files/app/db/_audit.py:19-30 | The unique index refuses a repeated id; otherwise the collection only grows |
| `AuditPages.AnyLimit` | backend/files/app/db/_audit.py:60-70 | With a positive limit a request is answered with its page; a limit of zero fails if and only if nothing matches and otherwise returns everything; a negative limit never leads to a second page |
| `AuditPages.AuditCollection.GetAuditEvents` | backend/files/app/db/_audit.py:32-70 | For any limit the query returns the specified answer, in strictly descending order, with a cursor exactly when the page has as many events as asked for |
| `Dedup.CacheRefinesRecord` | backend/shared/deduplication.py:55-127 | In every run, answer by answer, a duplicate is reported if and only if the last mark of the key has not expired and the key was not evicted since; until the first overflow the answers are those of a last-mark-plus-TTL record |
| `Dedup.AnswersAgree` | backend/shared/deduplication.py:55-127 | The same from any state that agrees with the record |
| `Dedup.SizeAndCounters` | backend/shared/deduplication.py:80-127 | In every run the size stays within `max_size` (zero when that is negative), hits count the positive answers, and hits plus misses count all |
| `Dedup.NewestSurvives` | backend/shared/deduplication.py:116-127 | A mark that outlives all other entries survives the eviction it causes when `max_size >= 1` |
| `Dedup.EvictsExactly` | backend/shared/deduplication.py:80-127 | A mark evicts exactly when the cache exceeds `max_size`, a fifth rounded down but at least one, and changes no other entry |
| `Dedup.ForgetsExactly` | backend/shared/deduplication.py:67-114 | A cleanup removes and counts exactly the expired entries; a check removes its own entry exactly if it has expired |
| `Dedup.IdempotencyCache.MaybeCleanup` | backend/shared/deduplication.py:97-114 | Too early it does nothing; otherwise it removes and counts exactly the expired keys |
| `Dedup.IdempotencyCache.CheckLocked` | backend/shared/deduplication.py:67-78 | The locked check answers and counts as the machine's step, dropping an expired entry |
| `Dedup.IdempotencyCache.IsDuplicate` | backend/shared/deduplication.py:55-78 | Whatever the cleanup removes first, the answer is that of the entry |
| `Dedup.IdempotencyCache.EvictOldest` | backend/shared/deduplication.py:116-127 | Drops `max(1, size / 5)` entries, none expiring later than one it keeps |
| `Dedup.IdempotencyCache.MarkProcessed` | backend/shared/deduplication.py:80-95 | A mark stores the override when one is given and the default time to live otherwise, and evicts when the cache overflows |
| `RankFusion.ClientRrf` | scripts/benchmarks/vector02_qdrant_operations.py:44-68 | The output is in key order and holds each id of either arm with the ranks of its first occurrences and their summed reciprocal weights |
| `RankScores.ScoreIsSum` | scripts/benchmarks/vector02_qdrant_operations.py:44-56 | Every score is the sum, over the arms that hold the id, of `1 / (k + rank)` of its first position |
| `RankScores.OutputOrder` | scripts/benchmarks/vector02_qdrant_operations.py:57-68 | Higher score first, then smaller best rank, then smaller id |
| `RankScores.TwoRanksAgainstOne` | scripts/benchmarks/vector02_qdrant_operations.py:44-68 | An id with ranks `r` and `s` precedes one with the single rank `t` if `(2k + r + s)(k + t) > (k + r)(k + s)` and follows it if that is reversed |
| `RankScores.EarlyPairWins` | scripts/benchmarks/vector02_qdrant_operations.py:44-68 | Two ranks of at most `k + 1` beat any single rank |
| `RankFusion.FuseArms` | scripts/benchmarks/vector02_qdrant_operations.py:44-56 | The nested loops compute the table of first-occurrence ranks and scores |
| `RankFusion.FirstOccurrence` | scripts/benchmarks/vector02_qdrant_operations.py:47-56 | A rank is the position of the first occurrence, and none comes earlier |
| `RankFusion.EachOnce` | scripts/benchmarks/vector02_qdrant_operations.py:57-68 | Every id of either arm appears exactly once, and no other |
| `RankFusion.RanksDetermine` | scripts/benchmarks/vector02_qdrant_operations.py:57-68 | Inputs with equal first-occurrence ranks have equal outputs, so dictionary order cannot matter |
| `RankFusion.ArmsAreSymmetric` | scripts/benchmarks/vector02_qdrant_operations.py:44-68 | Swapping the arms swaps the two ranks and leaves the order alone |
| `RankFusion.DominancePrecedes` | scripts/benchmarks/vector02_qdrant_operations.py:57-68 | An id at least as well ranked in both arms and strictly better in one comes first |
| `Sorting.LessExactly` | scripts/benchmarks/vector02_qdrant_operations.py:57-68 | Ids compare as strings: a proper beginning, or the smaller character at the first difference, comes first |

## Left out

- Metrics, logging, tracing spans and gauge publishing of every component: no control flow reads them.
- Scheduler timing: the batching window, condition timeouts and `encode` deadlines are nondeterministic steps, so every timing is covered and none is bounded; starting all workers is one step.
- Scheduler model errors: a failing `encode` of the model is an outcome of the batch; its exception text is not modelled.
- RPC: fresh correlation ids are assumed; the ticket check is an arbitrary verdict; `request_from_thread`, the content of stream callbacks and reconnect backoff are not modelled.
- Executor: the wall-clock part of the shutdown wait is a nondeterministic choice between finishing and timing out.
- RpcCode.RpcClient.Close: does not cancel the stream tasks or tear down channel and connection, because a stream task may end, and a client may disconnect, at any later step of the model.
- JobPipeline.ProcessMessage: does not model failures of the dead-letter send or of its flush, because the send swallows its own errors and the flush belongs to the producer.
- Circuit breaker: wrapped calls that raise something other than `Exception`, and the context-manager form.
- Rate limiter: one clock reading per check, exact reals instead of floating point; the whitelist and the parsing of proxy headers are not modelled.
- Job pipeline: schema parsing is a flag of the job; delays between retries are not modelled; the embedding model is a function of the text.
- Repository index: the chunkers and the digest are parameters, assumed to label rows with their path and not to collide; a tree is one snapshot, so files that vanish or change while a sync runs are not modelled, and neither is the choice of files (git listing, size limit); `Brain.query` is not modelled.
- Audit pages: a collection is what the tenant scope shows; deletions are not modelled.
- Rank fusion: exact reals, and a constant `k` that is not negative.
- The ingestion state machine, the REST layer, configuration, authentication, detectors and the frontend are not part of this model.
