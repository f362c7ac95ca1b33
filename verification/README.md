# Verified model of the order pipeline

A Dafny model of an order backend and proofs about all of its runs. Three parts:

1. **The order pipeline.** API requests claim an idempotency key in Redis, check the
   amount and publish a job. Workers get jobs at least once, take a lock with expiry,
   insert the order and move it QUEUED, SAVED, (POS call), SENT_TO_POS, COMPLETED under a
   version guard with an audit row per step. Failure handlers write FAILED into the same
   rows without the lock.
2. **Amounts.** The exact-sum check of a cart, the menu cache, and the LEGACY_V1
   adapter's conversion of won to jeon in floating point.
3. **The phone OTP store**: cooldown, expiry, attempt limit and a background sweep.

## How it is built

| file | what it holds |
|---|---|
| `Redis.dfy`, `OrderStateMachine.dfy`, `Pricing.dfy`, `OrderStore.dfy` | the commands, the status graph, the cart check, and the database transactions as functions on tables |
| `OrderRepository.dfy`, `DistributedLock.dfy`, `Idempotency.dfy`, `OrderQueue.dfy` | the services as classes, each method proved to do what those functions say, faults and rollbacks included |
| `Pipeline.dfy` | the whole system as a step relation: one step per Redis command, database read and commit; behaviors are its finite runs |
| `PipelineInvariant.dfy` | the inductive invariant and its preservation by every step |
| `PipelineHistory.dfy`, `PipelineProgress.dfy`, `PipelineRefinement.dfy`, `PipelinePatch.dfy` | theorems over all behaviors: duplicate protection and audit log under any PATCH; progress, finality and refinement without harmful ones; that exactly the harmful ones break them |
| `PipelineDeadLetter.dfy`, `PipelineOutcome.dfy` | theorems over all behaviors: which failure reports are dead-lettered, which only count, and what has become of the order; why a worker's transition can go stale |
| `PipelineColumns.dfy` | theorems over all behaviors: the columns and log rows of an order, from the steps that wrote them |
| `PipelineLock.dfy`, `PipelineGate.dfy`, `PipelineGateLimits.dfy`, `PipelineReplay.dfy`, `PipelineMoney.dfy` | theorems over all behaviors: lock with expiry, idempotency gate and its limits, what a replay names, the money and lines of an order |
| `LiveSystem.dfy`, `ProcessOrderService.dfy`, `CreateOrderService.dfy` | the imperative service code, await by await. The real objects run beside a ghost behavior, `Valid()` says they agree, and others may take any number of steps at every await; that the methods verify means every execution is part of a behavior, so the theorems hold of it |
| `MenuKeys.dfy`, `MenuTable.dfy`, `MenuCache.dfy`, `LegacyPos.dfy` | the menu cache's keys, the query behind it with what the cart check makes of its answer, the cache, and the legacy message |
| `Otp.dfy`, `OtpHistory.dfy`, `OtpReplies.dfy`, `OtpBound.dfy` | the OTP controller, the theorems over its runs, every answer read off the calls before it, and a run that meets the guess-rate bound |

Assumptions: one clock for Redis, database and services, which never runs backwards;
order ids and run numbers are fresh; a crashed run makes no further step; Redis commands and
database commits are atomic. Any command may fail without effect, and every writing command may
take effect and still report an error; what the services promise when no command of theirs fails
and the POS accepts is stated under `Backend.calm`, a constant that may be true or false. The stores table is a
set of ids, `Backend.stores`. The menu catalog is modelled apart from the pipeline, with a
clock of its own.
`LockWithExpiry` also assumes distinct lock tokens, that is, that no process works on the same
job twice at once; the token is the worker and job id and `ReleaseSparesIff` shows that this is
exactly what the release depends on. Amounts are whole jeon (prices are NUMERIC(10,2) won).

## Where the code and its documentation differ

The model follows the code.

- `redriveOrder` validates FAILED to QUEUED without the redrive flag, so it is always refused
  (`OrderStore.RedriveRefused`) and FAILED is final.
- docs/03-state-machine.md:178-182 has a redelivered job resume from SAVED. The code finds the
  duplicate and returns; an order whose inserting run is gone can only ever become FAILED
  (`PipelineProgress.OrphanedOrderOnlyFails`).
- The claim on an idempotency key may be given back after the job is out, and is deleted without
  asking whose it is. `PipelineGate.OneJobPerKeyAndTtl` names the two conditions under which at
  most one job per key and TTL is published; `PipelineGateLimits` shows that from every state
  about to break one of them a second job can follow. What protects the order then is the unique
  key (`PipelineHistory.AtMostOnePosPhase`, which needs neither condition).
- docs/04-concurrency-control.md describes the pending value as "pending:" and an id; the code
  stores the bare id. A key that ends in ":response" therefore shares a Redis key with another
  key's response (`Idempotency.ClaimOverResponseIff`); the look-up then fails to parse.
- docs/05-fault-tolerance.md:167 keeps failed jobs safe in the dead-letter queue. The FAILED
  transition is refused for a row at SENT_TO_POS and for every POS status, and the refusal is
  rethrown before the letter. A report without faults of its own is buried exactly when the row it
  read is missing or at QUEUED, SAVED, FAILED or COMPLETED (`PipelineDeadLetter.BuriesIff`).
- The PATCH endpoints write the status without version or audit row. The orders endpoint admits
  POS statuses only, the public one any status the column takes. Uniqueness, versions, log count and
  edges do not mind any of them. Finality, the exclusion of COMPLETED and FAILED, and the refinement
  hold unless a PATCH writes QUEUED or SAVED to an order whose log has left both
  (`PipelineProgress.HarmlessPatch`), and for every such PATCH there is a continuation that breaks
  them (`PipelinePatch.HarmfulPatchBreaks`). Harm is meant for the log only: a POS status written
  before the worker is done keeps later reports from being buried
  (`PipelineDeadLetter.CookingUnburied`).
- docs/04-concurrency-control.md:27 answers a duplicate with the existing response. The cached
  response outlives the claim by the time between the two, so a duplicate within the TTL of a new
  claim can be answered with the order of an older one (`PipelineReplay`).
- A menu id in upper case is found by the database, which answers in lower case, and is then
  reported as not found by the cart check (`MenuTable.NotFoundIffMisspelled`).

## Model

| member | source | states |
|---|---|---|
| PipelineRefinement.RefinesSpec | src/order/application/process-order.service.ts:34-250 | Every run of the whole system (duplicate publishes, redeliveries, expiring locks and claims, lost acknowledgements, crashes, concurrent dead-lettering, every PATCH that does no harm), seen through orders and audit log, is a run of a small specification that starts with no histories and in each step creates a key's history at QUEUED if it has none, extends one history by one allowed status, or does nothing |
| PipelineHistory.AtMostOnePosPhase | src/order/application/process-order.service.ts:60-86 | All POS steps ever made for one idempotency key belong to a single worker run, which enters the POS phase once, whatever the lock, the claim, the order ids and the PATCHes do |
| PipelineHistory.AtMostOneAcceptance | src/order/application/process-order.service.ts:130-142 | At most one sendOrder call per idempotency key ever returns successfully, over the whole history |
| PipelineHistory.OneInserter | src/order/application/process-order.service.ts:61-78 | Of two runs whose jobs carry the same key at most one has ever inserted an order |
| PipelineHistory.SentOnlyAfterAcceptance | src/order/application/process-order.service.ts:130-171 | Each SAVED, SENT_TO_POS and COMPLETED row of any audit log was written by the run that inserted the order; before each of the last two, sendOrder was accepted in that very run |
| PipelineHistory.AcceptanceHappened | src/order/application/process-order.service.ts:132-142 | A run remembered as accepted did make an accepted POS call at an earlier step of the behavior |
| PipelineHistory.OneWinnerPerVersion | src/order/infrastructure/repositories/order.repository.ts:160-175 | Among all transitionStatus calls ever made with one order and version at most one commits; every other one leaves all tables as they were |
| PipelineProgress.AuditDeterminesRow | src/order/infrastructure/repositories/order.repository.ts:117-193 | Without PATCH, in every reachable state the audit log starts from nothing at QUEUED, links end to end over allowed edges, ends at the row's status and has version + 1 rows; the version never exceeds 3 |
| PipelineHistory.AuditAccounts | src/order/infrastructure/repositories/order.repository.ts:135-193 | With any PATCHes, the count, the allowed edges and the time order of the log still hold, a timestamp column is set exactly when the log has a row into its status, and amounts and items are the job's |
| PipelineColumns.LogRowTold | src/order/infrastructure/repositories/order.repository.ts:174-192 | Whatever row a step adds to an audit log, it goes from the status the order's row had to its new one, names the run that commits as author, carries the reason of a failure and no other, and is dated with the clock at the BEGIN of that run's transaction, the run's last step before |
| PipelineColumns.ColumnsTold | src/order/infrastructure/repositories/order.repository.ts:195-207 | In every state of every run the columns of an order's row that the log does not tell are told by the steps so far: retry_count is the number of reports that counted a retry, dlq_at the time of the last DLQ mark (none if there was none), failure_reason the reason of the last report that failed or marked the order |
| PipelineColumns.ResponseTold | src/order/application/process-order.service.ts:150-158 | pos_response is set exactly when the log has a row into SENT_TO_POS, and then it is what an accepted POS call of the run that inserted the order returned |
| PipelineColumns.ReasonReported | src/order/application/process-order.service.ts:175-232 | Reason and attempt count of a failure handler are those of the report that started it, whatever it reads and retries; a worker has neither |
| PipelineProgress.TimestampsInOrder | src/order/infrastructure/repositories/order.repository.ts:135-170 | Unless a PATCH does harm, each log row's own timestamp column (queued_at for QUEUED and so on) holds the time of that row, and the columns never decrease along the log, although NOW() is taken at BEGIN and commits interleave |
| PipelineProgress.SixHistories | src/order/domain/order-state-machine.ts:15-21 | Unless a PATCH does harm, whatever crashes, races and reports an order goes through, the statuses of its log are one of six sequences: QUEUED; QUEUED SAVED; QUEUED SAVED SENT_TO_POS; QUEUED SAVED SENT_TO_POS COMPLETED; QUEUED FAILED; QUEUED SAVED FAILED |
| PipelineProgress.TerminalExclusion | src/order/application/process-order.service.ts:207-223 | Between any two moments of any run without a harmful PATCH (one that writes QUEUED or SAVED to an order whose log has left both): a log that has reached COMPLETED or FAILED never changes again, no log holds both, FAILED never comes with SENT_TO_POS, and no log is longer than four rows, with the unlocked failure path racing the workers |
| PipelinePatch.HarmfulPatchBreaks | src/common/public.controller.ts:245-248 | The condition is exact: from every state, whatever run led to it, a harmful PATCH followed by one failure report leads to a log with FAILED appended after SENT_TO_POS, COMPLETED or FAILED, an edge the table does not have |
| PipelinePatch.HarmfulPatchHappens | src/common/public.controller.ts:242-248 | A behavior without any PATCH so far reaches a COMPLETED order, where a PATCH of QUEUED or SAVED does harm; with the row above, COMPLETED and FAILED end up in one log |
| PipelineDeadLetter.BuriesIff | src/order/application/process-order.service.ts:200-232 | The exact condition for what docs/05-fault-tolerance.md:167 promises: a report that must be dead-lettered, and whose own commands all succeed, ends with a letter exactly when findById answered with no row or with QUEUED, SAVED, FAILED or COMPLETED; what others do in between makes no difference, and the letter stays |
| PipelineDeadLetter.RefusedIff | src/order/application/process-order.service.ts:211-222 | The FAILED transition of a report is refused, and rethrown past the letter, exactly when the status read is neither QUEUED nor SAVED |
| PipelineDeadLetter.ExhaustedReport | src/order/application/process-order.service.ts:183-232 | From every state, a report of exhausted retries that runs alone and without a fault leaves its letter exactly when the row is missing or has one of the four statuses, and leaves the dead-letter queue as it was otherwise |
| PipelineDeadLetter.SentUnburied | src/order/application/process-order.service.ts:150-171 | A behavior without PATCH reaches an order at SENT_TO_POS whose worker has crashed, where by the row above a report buries nothing |
| PipelineDeadLetter.CookingUnburied | src/order/api/order.controller.ts:42-56 | A behavior whose one PATCH does its log no harm reaches an order at COOKING with a log at QUEUED, where a report buries nothing either |
| PipelineDeadLetter.LetterSettles | src/order/application/process-order.service.ts:207-232 | Whenever a letter is buried, the handler had found no row, a terminal status, or an order whose version has moved or that was patched since; a stale version is swallowed, so it may have moved on with a worker |
| PipelineDeadLetter.RetryOnlyCounts | src/order/application/process-order.service.ts:183-191 | A retryable report with at most one attempt behind it never changes a status, a version, a log or the dead-letter queue, at any of its steps in any run; the one step that counts adds exactly one to its own order's retry counter |
| PipelineDeadLetter.LetterNeverCounts | src/order/application/process-order.service.ts:183-189 | A business error, and a report with two attempts or more, never counts a retry |
| PipelineOutcome.StaleMeansFailed | src/order/infrastructure/repositories/order.repository.ts:160-175 | Without PATCH a worker's transition goes stale for one reason only: a failure report has written FAILED to the order |
| PipelineProgress.PosPatchesAreHarmless | src/order/api/order.controller.ts:42-56 | The statuses the orders endpoint admits do no harm |
| PipelineProgress.OrphanedOrderOnlyFails | src/order/application/process-order.service.ts:74-78 | Once the run that inserted an order is over, and unless a PATCH does harm, the order's log stays as it is for ever or gets one FAILED; no redelivery resumes it |
| PipelineHistory.HistoryGrows | src/order/infrastructure/repositories/order.repository.ts:44-207 | Between any two moments of a run, orders, items, log rows and what runs have done are only ever added to |
| PipelineRefinement.StepAbstracts | src/order/application/process-order.service.ts:34-250 | Each step of a behavior is one step of the specification |
| PipelineRefinement.StepRefines | src/order/application/process-order.service.ts:34-250 | One step of the system is one step of the specification, in any state that satisfies the invariants |
| PipelineProgress.AlwaysInOrder | src/order/infrastructure/repositories/order.repository.ts:117-193 | Unless a PATCH does harm, in every state every log is a walk through the table, a row that says QUEUED or SAVED has a log that ends there, and the log of a worker's order ends where its next transition needs it or at FAILED |
| PipelineProgress.CommitFollows | src/order/infrastructure/repositories/order.repository.ts:160-175 | Whatever transition commits, its status may follow the status the log ends at, although the row may say something else by then |
| PipelineInvariant.StepKeeps | src/order/application/process-order.service.ts:34-250 | Every step of a request, worker run, failure handler, clock or PATCH keeps the inductive invariant that ties runs, jobs, rows and logs together |
| PipelineInvariant.Reachable | src/order/application/process-order.service.ts:34-250 | The invariant holds in every state of every behavior |
| PipelineInvariant.CommitExtends | src/order/infrastructure/repositories/order.repository.ts:160-175 | A transition can only commit when its run has read the log to the very end, so its transaction started after the last row was written |
| PipelineInvariant.InsertedRecord | src/order/infrastructure/repositories/order.repository.ts:55-99 | The record a winning insert leaves satisfies the whole record invariant, with the inserting run as author |
| PipelineLock.LockWithExpiry | src/order/infrastructure/lock/distributed-lock.service.ts:30-47 | Of two runs inside the critical section of one order the earlier acquirer outlived its TTL before the later one acquired; a run within its TTL owns the Redis entry and the other's late release leaves it there (distinct tokens) |
| PipelineLock.AlwaysLocked | src/order/infrastructure/lock/distributed-lock.service.ts:30-54 | In every state the acquisitions of runs inside one order's critical section are a TTL apart, and each within its TTL has its own entry |
| PipelineLock.ReleaseSparesIff | src/order/infrastructure/lock/distributed-lock.service.ts:41-47 | A late release leaves the entry of the current holder exactly when the two tokens differ |
| PipelineGate.OneJobPerKeyAndTtl | src/order/application/create-order.service.ts:52-112 | Over any interleaving of requests, failed validations included, two different jobs for one key come from claims at least a TTL apart, provided no request gives its claim back after publishing and none gives it back after it ran out |
| PipelineGateLimits.LateReleaseOpensGate | src/order/application/create-order.service.ts:105-112 | From every state in which a published request is about to give back a lasting claim, the system can go on to publish a second job for the key within the TTL |
| PipelineGateLimits.SlowReleaseOpensGate | src/order/infrastructure/idempotency/idempotency.service.ts:38-41 | From every state in which any request is about to give its claim back, delay alone leads to two jobs for the key from claims of one moment, because the DEL does not ask whose claim it is |
| PipelineGateLimits.TwoJobsATtlApart | src/order/infrastructure/idempotency/idempotency.service.ts:27-36 | The bound is met: a run that keeps both conditions publishes two jobs for one key from claims exactly a TTL apart |
| PipelineGateLimits.LateReleaseHappens | src/order/application/create-order.service.ts:85-112 | A state of the first kind is reached when a publish's acknowledgement is lost |
| PipelineGateLimits.SlowReleaseHappens | src/order/application/create-order.service.ts:110-120 | A state of the second kind is reached by a cart that fails its validation |
| PipelineReplay.ReplayNamesHolderIff | src/order/application/create-order.service.ts:55-64 | While a published request's claim lasts, a look-up of its key is answered with its order exactly when it was the last to cache; an order of another request was cached longer after that request's claim than the present claim is old |
| PipelineReplay.ReplayIsLastCached | src/order/infrastructure/idempotency/idempotency.service.ts:44-62 | A look-up is answered with the order of the last response cached for the key while its TTL lasts, with a conflict otherwise; a claim on the one colliding key can only make it a conflict or an error |
| PipelineReplay.StaleReplayFollows | src/order/application/create-order.service.ts:53-60 | From every orderly state where a key's response outlives its claim, the next two requests are a new job and a replay of the old order while the new claim is live |
| PipelineReplay.StaleReplayHappens | src/order/application/create-order.service.ts:53-105 | Such a state is reached without a fault or a release, by ten milliseconds between claim and publish |
| PipelineGate.RepliesNameJobs | src/order/application/create-order.service.ts:52-108 | Whatever expires or fails, an accepted response names the request's own published job, and a replayed one some job published for the request's key; which one is told by ReplayNamesHolderIff |
| PipelineMoney.OrderIsTheCart | src/order/application/create-order.service.ts:140-178 | The rows of every order that ever exists are the cart its client sent: the cart's lines in order at the prices and names of the menus the check used, the client's amount, key and store, and a total that is the exact sum and equals the client's amount |
| PipelineMoney.MoneyConserved | src/order/application/create-order.service.ts:147-178 | For every order row that ever exists, requested amount = calculated amount = sum of unit price times quantity over the order's item rows, repeated menus included; the amount, every price and every subtotal lie in 0 to 99,999,999.99 won, every quantity is at least 1 |
| PipelineMoney.PosMessageAddsUp | src/order/infrastructure/pos/adapters/legacy-v1.adapter.ts:54-80 | Whenever a run is calling the POS, the legacy message of its order has the order's store, the date given, exact jeon amounts, the job's lines in order, and a TOTAL that is the sum of its own PRICE times QTY |
| PipelineGate.AlwaysFits | src/order/application/create-order.service.ts:42-125 | Requests, published jobs and cached responses belong together in every state |
| ProcessOrderService.ProcessOrderService.Process | src/order/application/process-order.service.ts:34-52 | Every execution, interleaved with anything else, is part of a behavior of the pipeline and ends with the run over. If it reports completion, COMPLETED was written by this run, which also inserted the order and heard the POS accept; if a duplicate, an order holds the key. With any result but a lock not acquired or a failed release, its last step is the release and no live entry of the order holds its token after it. If no command fails and the store exists, it completes, finds a duplicate, finds the lock held by a live entry, or is stopped by a database that refuses the order or a stale transition, which without PATCH means the order is FAILED |
| ProcessOrderService.StoppedMeans | src/order/application/process-order.service.ts:45-50 | What can stop a worker whose commands all succeed: an insert the database refused, or, without PATCH, an order that a failure report has made FAILED, and that is FAILED still |
| ProcessOrderService.ProcessOrderService.ProcessWithLock | src/order/application/process-order.service.ts:54-87 | Always reaches the release point of the finally block; completion means this run's COMPLETED row is in the log |
| ProcessOrderService.ProcessOrderService.CreateOrder | src/order/application/process-order.service.ts:60-78 | Ends before the SAVED transition exactly with the version read after its own insert, or at the release point |
| ProcessOrderService.ProcessOrderService.TransitionToSaved | src/order/application/process-order.service.ts:89-102 | Ends ready for the POS when the transition is done, at the release point otherwise |
| ProcessOrderService.ProcessOrderService.SendToPos | src/order/application/process-order.service.ts:104-173 | Reaches SENT_TO_POS and COMPLETED only through an accepted call; completion means this run's COMPLETED row is in the log. A store that is not in the table ends it before the call; otherwise, if no command fails, only a stale transition can |
| ProcessOrderService.ProcessOrderService.Transit | src/order/application/process-order.service.ts:150-171 | One transition of the last two stages: done means the entry is in the log and the run goes on, anything else leads to the release point |
| ProcessOrderService.ProcessOrderService.Advance | src/order/application/process-order.service.ts:146-171 | Read and transition with the version read; done means the entry is in the log |
| ProcessOrderService.ProcessOrderService.HandleFailure | src/order/application/process-order.service.ts:175-198 | Its first step is the report it was given. A business error or two and more attempts never count a retry: they end in the dead-letter queue with the job, reason and attempts given, in the state machine's refusal, or in an error. A retryable error with at most one attempt never ends there: if it answers that a retry was counted, its last step raised this order's counter by one and changed nothing else in the tables or the dead-letter queue. Without a failing command it never ends in an error |
| ProcessOrderService.ProcessOrderService.FailOrder | src/order/application/process-order.service.ts:208-223 | Never refused for a row at QUEUED or SAVED, and never done or stale for any other; a done or stale transition goes on to the mark, a refusal or error ends the run |
| ProcessOrderService.ProcessOrderService.MoveToDlq | src/order/application/process-order.service.ts:200-232 | Ends buried, refused, or in a failed command. Buried: the last step put the letter with this reason and these attempts in the queue, or found one of this order and millisecond there, and the row read was missing or at QUEUED, SAVED, FAILED or COMPLETED. Refused: it was at any other status |
| ProcessOrderService.ProcessOrderService.Bury | src/order/application/process-order.service.ts:225-232 | The mark comes before the dead letter; success means both happened |
| ProcessOrderService.CompletionWasAccepted | src/order/application/process-order.service.ts:146-171 | A COMPLETED row implies that its author inserted the order and made an accepted POS call |
| ProcessOrderService.SaidStays | src/order/application/process-order.service.ts:45-50 | What the tables said before the lock was released they say afterwards, whatever others did in between |
| CreateOrderService.CreateOrderService.Execute | src/order/application/create-order.service.ts:42-125 | Every execution is part of a behavior of the pipeline and answers once. Accepted: the job published under the new id has the command's key, store and amount, and its lines are the cart's at the names and prices that one state of the menus table gives this store's available menus, read for a fill stored less than 300 s before; their exact sum is the client's amount. Replayed: a job of this key has the id returned. Unprocessable (for UUIDs): in such a state this store does not sell the cart at that amount. Unprocessable and Unavailable: the last step gave the claim back. If no command fails: Unavailable only for ids the query cannot read, and replays, conflicts and errors only after a live claim was found |
| CreateOrderService.CreateOrderService.Run | src/order/application/create-order.service.ts:52-66 | A new claim leads into the try block, a taken one to the cached response, a conflict or an error |
| CreateOrderService.CreateOrderService.WithClaim | src/order/application/create-order.service.ts:68-124 | Every path out of the try block answers, an acceptance is for the lines and prices of one state of the table, and every path that is not an acceptance goes through the release of the claim, after which the claim key is gone unless the release itself fails |
| CreateOrderService.CreateOrderService.PublishAndCache | src/order/application/create-order.service.ts:85-105 | True means cached and just this payload in the queue under its id, false leaves the request before the release; if no command fails it is true |
| CreateOrderService.CreateOrderService.Validated | src/order/application/create-order.service.ts:140-179 | A valid outcome is about to publish exactly the lines that one state of the table, read for a fill stored less than 300 s before, has for this store's available menus, in the cart's order and at their names and prices, with their exact sum equal to the client's amount; an invalid one means the store does not sell the cart so, and is about to give the claim back. If no command fails there is an outcome unless the query cannot read the ids |
| LiveSystem.OthersKeepMine | src/order/application/process-order.service.ts:34-250 | Whatever any other party does during an await, a run or request finds its own record unchanged |
| LiveSystem.Backend.Record | src/order/application/process-order.service.ts:34-250 | A recorded command is one enabled step of the pipeline, and the behavior so far is a prefix of the new one |
| LiveSystem.Backend.AcquireLock | src/order/infrastructure/lock/distributed-lock.service.ts:49-54 | The lock command as one step: in the critical section when it was free or expired, over otherwise; busy means a live entry was there at that step |
| LiveSystem.Backend.ReleaseLock | src/order/infrastructure/lock/distributed-lock.service.ts:45-47 | The release command as one step that ends the run, after which no live entry of the order holds the run's token |
| LiveSystem.Backend.CreateOrder | src/order/infrastructure/repositories/order.repository.ts:49-110 | The insert transaction as one step at its commit; a duplicate means the key is taken in the tables, and without a fault an error means the database refused the order |
| LiveSystem.Backend.FindById | src/order/infrastructure/repositories/order.repository.ts:38-42 | The read as one step that leaves the run with the status and version returned |
| LiveSystem.Backend.TransitionStatus | src/order/infrastructure/repositories/order.repository.ts:117-193 | The transition as one step at its commit; done means exactly this audit row is in the log, stale that the version guard stopped it at that step, refused that the table has no such edge |
| LiveSystem.Backend.CallPosGuarded | src/order/infrastructure/pos/circuit-breaker/pos-circuit-breaker.service.ts:38-85 | Up to four calls, with a free outcome each and the circuit opening anywhere; the result is that of an accepted call or a failure, and a failure only if a call failed or the circuit was open |
| LiveSystem.Backend.MarkDlq | src/order/infrastructure/repositories/order.repository.ts:195-200 | The DLQ mark as one step of the failure handler |
| LiveSystem.Backend.CountRetryUp | src/order/infrastructure/repositories/order.repository.ts:202-207 | The counter as one step: success means this order's counter is one higher and nothing else in the tables or the dead-letter queue has changed |
| LiveSystem.Backend.PublishToDlq | src/order/infrastructure/queue/order-queue.service.ts:58-66 | The dead letter as one step; success means that step put just this letter in the queue, or found one of this order and millisecond there and left it |
| LiveSystem.Backend.TryAcquire | src/order/infrastructure/idempotency/idempotency.service.ts:27-36 | The claim as one step, new exactly when no unexpired claim was there; taken means a live claim was there at that step |
| LiveSystem.Backend.GetCachedResponse | src/order/application/create-order.service.ts:56-63 | The look-up as one step; without a fault the answer is the id of the live response at that step, a conflict when there is none, an error when a bare id is there |
| LiveSystem.Backend.PublishOrder | src/order/infrastructure/queue/order-queue.service.ts:50-56 | The publish as one step; success means the queue has just this payload under the order id, and an error may come before or after it took effect |
| LiveSystem.Backend.SetCompleted | src/order/infrastructure/idempotency/idempotency.service.ts:44-54 | The response cache as one step; success is the acceptance |
| LiveSystem.Backend.ReleaseClaim | src/order/infrastructure/idempotency/idempotency.service.ts:39-41 | The unconditional DEL as one step, after which the claim key is gone |
| OrderRepository.OrderRepository.CreateOrder | src/order/infrastructure/repositories/order.repository.ts:49-110 | Over three tables, statement by statement with any fault: on commit the tables hold exactly the new row, the job's items in order and the creating audit row; on a duplicate, a rejected value or a fault at any statement they are as before. Amounts out of range are rejected before the key is looked at, a used id and the items' CHECKs after it |
| OrderRepository.OrderRepository.InsertItems | src/order/infrastructure/repositories/order.repository.ts:80-88 | The loop takes all items in order exactly when each satisfies the checks of order_items, and touches no other order's rows |
| OrderRepository.OrderRepository.UpdateOrders | src/order/infrastructure/repositories/order.repository.ts:160-172 | One row changes exactly when id, status and version match, and only the listed columns |
| OrderRepository.OrderRepository.TransitionStatus | src/order/infrastructure/repositories/order.repository.ts:117-193 | Commits row and audit entry together exactly when the edge is allowed and the version guard matches; refusal, staleness and faults leave all tables as before |
| OrderRepository.OrderRepository.InsertTransition | src/order/infrastructure/repositories/order.repository.ts:260-284 | The audit table gets one row at its end, seen by its order only |
| OrderRepository.OrderRepository.MarkDlq | src/order/infrastructure/repositories/order.repository.ts:195-200 | Sets the DLQ time and the reason of one row and nothing else |
| OrderRepository.OrderRepository.IncrementRetryCount | src/order/infrastructure/repositories/order.repository.ts:202-207 | Adds one to the counter of one row and nothing else |
| OrderRepository.OrderRepository.FindById | src/order/infrastructure/repositories/order.repository.ts:38-42 | The row of the tables, or none |
| OrderRepository.TablesWrite | database/migrations/001_initial_schema.sql:88-114 | Writing one order's rows in the three tables is writing one record of the store |
| OrderStore.InsertKeeps | database/migrations/001_initial_schema.sql:44-45 | An insert keeps keys unique and every existing record, and a new record's log determines its row |
| OrderStore.InsertedIff | database/migrations/001_initial_schema.sql:44-114 | An order goes in exactly when key and id are new, both amounts are within 0 to 99,999,999.99 won, and every line has a quantity of at least 1 and a price and subtotal in that range; a taken key is answered as a duplicate exactly when the two amounts fit |
| OrderStore.TransitionKeeps | src/order/infrastructure/repositories/order.repository.ts:117-193 | A transition keeps keys unique, extends logs only, and keeps a log in charge of its row |
| OrderStore.StampSetIff | src/order/infrastructure/repositories/order.repository.ts:286-295 | A timestamp column is set exactly when the log has a row into its status, and then holds the time of the last such row |
| OrderStore.LogRank | src/order/domain/order-state-machine.ts:15-21 | Row i of a log that walks the table is at a status of rank at least i, so a log has at most four rows |
| OrderStore.LogShape | src/order/domain/order-state-machine.ts:15-21 | In a log that walks the table nothing follows a terminal status, no status repeats, only COMPLETED follows SENT_TO_POS, and COMPLETED follows only SENT_TO_POS |
| OrderStore.LogIsOneOfSix | src/order/domain/order-state-machine.ts:15-21 | A log that walks the table is one of six histories |
| OrderStateMachine.Edges | src/order/domain/order-state-machine.ts:15-44 | The tables have these edges and no others: QUEUED to SAVED and FAILED, SAVED to SENT_TO_POS and FAILED, SENT_TO_POS to COMPLETED; for a redrive FAILED to QUEUED |
| OrderStateMachine.TerminalIffAbsorbing | src/order/domain/order-state-machine.ts:46-48 | A status is terminal exactly when it is a worker status that no allowed transition leaves |
| OrderStateMachine.PathBound | src/order/domain/order-state-machine.ts:15-44 | A path over both tables with r redrives has at most 3r + 3 transitions |
| DistributedLock.DistributedLockService.Acquire | src/order/infrastructure/lock/distributed-lock.service.ts:30-39 | Wins exactly when no unexpired entry is there, and then the entry is the caller's for a TTL |
| DistributedLock.DistributedLockService.Release | src/order/infrastructure/lock/distributed-lock.service.ts:45-47 | Deletes the entry exactly when it is live and holds the caller's token |
| Idempotency.IdempotencyService.TryAcquire | src/order/infrastructure/idempotency/idempotency.service.ts:27-36 | New exactly when no unexpired claim is there; a lost race changes nothing |
| Idempotency.IdempotencyService.Release | src/order/infrastructure/idempotency/idempotency.service.ts:39-41 | The claim is gone, whoever held it |
| Idempotency.IdempotencyService.SetCompleted | src/order/infrastructure/idempotency/idempotency.service.ts:44-54 | The response replaces what was under the response key, for a TTL |
| Idempotency.IdempotencyService.GetCachedResponse | src/order/infrastructure/idempotency/idempotency.service.ts:57-62 | Absent, found, or unparseable, by what is live under the response key |
| Idempotency.KeysInjective | src/order/infrastructure/idempotency/idempotency.service.ts:69-75 | Different keys have different claim keys and different response keys |
| Idempotency.ClaimOverResponseIff | src/order/infrastructure/idempotency/idempotency.service.ts:69-75 | A claim key is another key's response key exactly when the first key is the second with ":response" after it |
| OrderQueue.OrderQueueService.PublishOrder | src/order/infrastructure/queue/order-queue.service.ts:50-56 | Adding a job twice is adding it once: the id is fixed by the order |
| OrderQueue.OrderQueueService.PublishToDlq | src/order/infrastructure/queue/order-queue.service.ts:58-66 | Adds one letter under order id and millisecond; a second letter of the same order and millisecond is dropped |
| Pricing.ValidateAndEnrichItems | src/order/application/create-order.service.ts:147-178 | The loop finds the first line that cannot be ordered and its error, or the lines at menu prices with their exact total, compared with the client's amount |
| Pricing.AcceptedIff | src/order/application/create-order.service.ts:147-178 | A cart is accepted exactly when every line can be ordered and the client's amount is the exact sum; the lines kept are the cart's, in order, at the menu's price |
| Pricing.VerdictIs | src/order/application/create-order.service.ts:152-170 | Every verdict from the cart: the first line that cannot be ordered decides, as MenuNotFound with its id when no menu is there and as MenuUnavailable with the menu's name when one is; without such a line the exact total is compared, and a mismatch names the client's amount and that total |
| Pricing.FirstRefused | src/order/application/create-order.service.ts:152-155 | Everything before the position can be ordered and what stands there cannot |
| MenuCache.MenuCatalog.GetMenusCached | src/order/application/create-order.service.ts:127-138 | With any interference between its awaits and any failing command: an answer is the query for this very request on the table state current at its read; on a hit that read is the one of the fill that stored the entry, and less than 300 s have passed since it was stored; on a miss the read is this call's and the answer is stored now for 300 s; it fails exactly when a command does or the ids are no UUIDs |
| MenuCache.MenuCatalog.Refill | src/order/application/create-order.service.ts:135-137 | The miss: the answer comes from the table as read after the call began, is stored for a TTL from the moment of storing, and is kept from the caller exactly when a command fails or the ids are not UUIDs |
| MenuCache.MenuCatalog.FindMenus | src/order/infrastructure/repositories/order.repository.ts:238-256 | No query for no ids; otherwise it fails for anything that is not a UUID |
| MenuCache.HitAgrees | src/order/application/create-order.service.ts:131-133 | A hit is the query for this request on the table state that the fill of the entry read, although another request may have filled it |
| MenuKeys.CacheKeyIff | src/order/application/create-order.service.ts:131 | Two answerable requests share a cache key exactly when they name the same store and the same ids, each as often |
| MenuKeys.CommaCollides | src/order/application/create-order.service.ts:131 | For ids that may hold a comma the key is ambiguous |
| MenuTable.FoundIff | src/order/infrastructure/repositories/order.repository.ts:243-249 | An id is in the answer exactly when the table has it, its row is of this store and some requested id spells it; what comes with it is the row's menu |
| MenuTable.AcceptedIffSells | src/order/application/create-order.service.ts:147-170 | A cart checked against the query's answer is accepted exactly when this store's available rows of the table hold every line under just its id and the exact sum is the client's amount; the lines kept have the rows' names and prices. A line that names another store's menu is never accepted |
| MenuTable.OrderableIffCanonical | src/order/infrastructure/repositories/order.repository.ts:238-256 | A menu that the query finds for a line, available, can be ordered by the line exactly when the line spells its id as the database does |
| MenuTable.NotFoundIffMisspelled | src/order/application/create-order.service.ts:147-155 | A cart whose menus are all there and available is answered with MenuNotFound exactly when one of its ids is in another spelling, and the error names the first such id |
| MenuTable.UpperCaseNotFound | src/order/application/create-order.service.ts:152-154 | An id in upper case, which the database reads, is such an input |
| MenuKeys.SortSorts | src/order/application/create-order.service.ts:131 | The sort puts the ids in order |
| MenuKeys.SortedUnique | src/order/application/create-order.service.ts:131 | A multiset of ids has one sorted arrangement |
| MenuKeys.JoinInjective | src/order/application/create-order.service.ts:131 | A comma-joined list of UUIDs can be taken apart again |
| LegacyPos.ExactJeon | src/order/infrastructure/pos/adapters/legacy-v1.adapter.ts:66-67 | With any double arithmetic of relative error 2^-53, rounding price times 100 gives the exact jeon amount, up to 10^15 jeon |
| LegacyPos.TwoRoundings | src/order/infrastructure/pos/adapters/legacy-v1.adapter.ts:66-67 | Two roundings stay within half a jeon of the exact product |
| LegacyPos.MessageAddsUp | src/order/infrastructure/pos/adapters/legacy-v1.adapter.ts:54-80 | For every order the database takes, the message has the order's store, exact prices, and TOTAL is the sum of PRICE times QTY |
| Otp.AuthController.SendPhoneOtp | src/auth/auth.controller.ts:25-55 | Reply and store after every branch; the replies over whole runs are in the OtpReplies rows |
| Otp.AuthController.VerifyPhoneOtp | src/auth/auth.controller.ts:59-84 | Reply and store after every branch; the replies over whole runs are in the OtpReplies rows |
| Otp.AuthController.Sweep | src/auth/auth.controller.ts:14-19 | One pass removes exactly the expired records |
| OtpReplies.SucceedsIff | src/auth/auth.controller.ts:63-83 | Over any run, for any nonempty input: a verification succeeds exactly when what it enters, trimmed, is the last code sent to the phone, not used yet, sent at most 180 s before, with fewer than five codes entered since |
| OtpReplies.FreshReply | src/auth/auth.controller.ts:73-83 | A code entered within 180 s of an unused last code: after five others it is refused as too many, else the right one succeeds and a wrong one is answered with how many of five are left |
| OtpReplies.StaleReply | src/auth/auth.controller.ts:67-72 | Without such a code the answer is expired exactly while the record is there, and never sent exactly when none was sent and unused or a sweep or an entered code has come after its 180 s |
| OtpReplies.SendReplies | src/auth/auth.controller.ts:26-43 | Over any run: a code is issued exactly for ten or eleven digits beginning with 01, at least 60 s after the last unused one and, if five codes were entered since, at least 180 s after it. Cooling down names the shortest whole number of seconds after which the 60 s are over; blocked means five codes were entered and the 180 s are not over |
| OtpReplies.MissingIff | src/auth/auth.controller.ts:63-65 | Missing input is the answer exactly when the phone has no digit or the code is blank |
| OtpReplies.OutstandingHolds | src/auth/auth.controller.ts:45-83 | The store, read off the calls: an unused last code is held with its 180 s and its count of codes entered, up to five, until a sweep or an entered code comes after that time |
| OtpReplies.DigitsOf | src/auth/auth.controller.ts:26 | What is read of a phone is its digits in order and nothing else |
| OtpReplies.TrimOf | src/auth/auth.controller.ts:61 | What is read of a code is what is left after white space at both ends |
| OtpHistory.GuessRateBound | src/auth/auth.controller.ts:34-80 | In every window of w ms without a successful verification at most 10 + 4 * (w / 60000) codes are compared for a phone |
| OtpBound.BoundIsMet | src/auth/auth.controller.ts:34-80 | The bound is met: for every k some run compares 10 + 4k codes for one phone in a window of k minutes without a successful verification |
| OtpHistory.OneTimeUse | src/auth/auth.controller.ts:45-83 | Every comparison is against the latest code issued for the phone, at most 180 s old, unused and for at most the fifth time; it succeeds exactly when the codes are equal, and then the code is gone |
| OtpHistory.EveryCodeWasIssued | src/auth/auth.controller.ts:45-51 | Every code held was issued by an identifiable send, with its attempts the number of comparisons since |
| OtpHistory.SweepInvisible | src/auth/auth.controller.ts:13-19 | Two runs that differ only in their sweeps give the same ok to every send and verify |
| OtpHistory.SweepsUnnoticed | src/auth/auth.controller.ts:13-19 | The bisimulation: from stores that differ in expired records only, a run with sweeps and the run without them answer alike |
| OtpHistory.AlwaysWellFormed | src/auth/auth.controller.ts:46-51 | Every record expires 180 s after it was sent, was sent in the past, and has at most five attempts |

## Left out

- HTTP layer, DTO checks, sockets, Slack and SMS sending, logging, metrics, trace context and user ids: input and output around the logic.
- The circuit breaker's own state: a guarded call makes up to four POS calls with free outcomes and may be cut short at any of them.
- Job scheduling, backoff and stalled-job timing, and the removal of completed jobs from the queue: any published job may be delivered any number of times, at any time, with any attempt counter.
- PipelineDeadLetter.BuriesIff: a report one of whose own commands fails may end anywhere; repeated reports of one job are separate runs.
- Liveness: a crashed run never moves again and nothing is said about orders that stay SAVED; no statement says that an order ends.
- PipelineGate.OneJobPerKeyAndTtl: stated under the two conditions named in the row, because without them it is false; PipelineGateLimits.LateReleaseOpensGate and PipelineGateLimits.SlowReleaseOpensGate show how it fails when either is dropped.
- PipelineProgress.TerminalExclusion: harmful PATCHes are excluded, because with them it is false; PipelinePatch.HarmfulPatchBreaks shows that of every one of them. PipelineProgress.OrphanedOrderOnlyFails, PipelineProgress.TimestampsInOrder and PipelineRefinement.RefinesSpec are stated under the same condition.
- PipelineReplay.ReplayNamesHolderIff: one direction leaves out keys whose claim shares the response key of the key at hand (the key followed by ":response"), which can turn the answer into a conflict or an error.
- LiveSystem.Backend.Yield and MenuCache.MenuCatalog.Interfere: their bodies do nothing; callers see only their contracts, which allow any steps of other parties.
- MenuCache.MenuCatalog.GetMenusCached: the answer is a map by id, not a list; the order of the query's rows, and spellings of UUIDs other than 36 hexadecimal digits and hyphens, are not modelled.
- LegacyPos.BuildMessage: the message's fields instead of its XML text; rounding errors are any within the relative bound, overflow and subnormal numbers cannot occur at these amounts.
- OrderRepository.OrderRepository.CreateOrder: references to stores and menus that do not exist count as faults of a statement, and varchar lengths are not checked.
- The 20-digit precision of decimal.js: sums are exact here; at NUMERIC(10,2) prices a total would need more than 20 digits to differ, which the amount column refuses.
- Redis failover and commands re-sent by the client library: a command takes effect once or not at all, though its caller may not learn of it.
- Pricing.CartItem: quantities are whole numbers; the public endpoint passes on any number, and the integer column refuses a fraction when the worker inserts the row.
- The MODERN_V2 adapter, the outbox publisher (not wired in), and the decoding of stored credentials.
- Redrive as a working feature, admin queries, sales, customers, areas, menu management and settings: simple queries that would only add easy members.
- The choice of the code in sendPhoneOtp: the six digits are a parameter, so nothing is said about guessing odds beyond the count of comparisons.
