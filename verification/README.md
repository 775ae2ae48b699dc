# Run Anywhere: verified model of job ownership, dispatch and fairness

Run Anywhere runs Android test jobs on a pool of workers. Three things decide whether a job is run
exactly as promised: the PostgreSQL rows that say who owns it, the JetStream work queue that brings
it to the scheduler, and the scheduler's in-memory state (a weighted fair queue, acknowledgement
bindings, observations of orphaned runtimes). This project models that protocol and proves what it
keeps over whole runs, under any interleaving and with a stop between any two effects.

How the model is laid out:

- `Lifecycle`, `DeadLetters`: the pure contracts (state machine, dead letters and their keys).
- `Store`: rows, the CHECK constraints, and every transaction as one atomic function of the database.
  `Repository` is the object that performs them statement by statement; each method is proved to
  commit its transaction or nothing.
- `Runs`, `Invariant`, `Guarantees`: any sequence of transactions as the system calls them (fresh
  lease ids, worker requests always fenced, unguarded transitions only after a lease-free snapshot),
  the invariant of every reachable database, and the promises that follow. `TransactionLaws` says in
  the columns of the rows exactly when each transaction takes effect in a reachable database, and what
  it leaves.
- `Lanes`, `Fairness`, `FairRuns`, `FairQueue`: the fair queue as functions, its long-run bounds, and
  the mutable objects that refine those functions.
- `Delivery`, `QueueProtocol`, `QueueSafety`, `QueueGuarantees`, `QueueProgress`, `QueueOutcomes`,
  `QueueFairness`: the work queue, its bounded buffer, what each handler brings about when it runs to
  its end, and the buffer as the fair queue. Handlers of the
  dispatcher, the advisory consumer, the control plane and the reconciler are plans of single
  effects; any number of them interleave with each other, with transactions, with foreign or late
  publishes, and can be abandoned after any effect. The deduplication window may forget ids.
- `Finalizer`: the six-pass result finalizer under interference.
- `EventLog`: the event log with its global sequence, open transactions and row locks, and the
  event-stream reader.
- `AckRegistry`, `Reaper`: acknowledgement bindings and runtime reaping across passes.
- `Witnesses`, `QueueWitnesses`: concrete runs and histories that reach the failing sides below.

Assumptions, as the system makes them: lease ids and job ids are fresh (UUIDs), and no queue message
names a job id before the job is created; quota columns are fixed; `max_run_attempts` is constant and
positive; only the publishers use their deduplication ids; the engine lists each runtime once per
inventory. Clocks are arbitrary integers, and no two clocks are assumed to agree.

Where the code does not give the plain form of a property, the exact condition is proved, and a run or
history shows that the failing side is reached:

- The finalizer's six passes can run out. `BudgetIsExact` shows that under a live lease this happens
  for some interference if and only if the goal is at least six lifecycle edges away and the contract
  admits the outcome from the starting state; from InstallingApk on it never does. `BudgetDoesRunOut`
  reaches it. `ExpiredLeaseExhausts` shows that a lease that has expired and is not yet recovered uses
  up the passes without moving the job.
- The last message of an exhausted job can be retired before its dead letter is published, against the
  comments in crates/scheduler/src/dispatcher.rs:604-608 and crates/scheduler/src/dlq.rs:169-170.
  `EarlyRetirementIsReplay` shows that exactly the acknowledgement of a replayed terminal transition
  does it, when its old lease still has the message bound; every other handler waits.
  `EarlyRetirementHappens` is a history.
- Bound sequences of a lease can decrease. `SequenceDropsExactly` says when, and `SequenceDoesDrop` is
  a history; while the lease stays bound they do not (`BoundSequencesGrow`).
- Transition evidence can violate the cleanup-after-artifacts constraint. `ChecksCatchOnlyCleanup` says
  exactly when, and that no other constraint of the model rejects a transition;
  `CleanupConstraintDoesReject` reaches it.
- A published queued job cannot always be buffered. `QueuedJobCanBeBuffered` says that the handlers can
  bring it into the buffer exactly when the buffer is not full, and `FullBufferHappens` reaches a full one.

## Model

| member | source | states |
|---|---|---|
| Lifecycle.TerminalState | crates/scheduler/src/control.rs:634-642 | the terminal state of an outcome is terminal and names that outcome |
| Lifecycle.PathsAreBounded | crates/contracts/src/state_machine.rs:82-147 | every chain of allowed transitions strictly advances, so none is longer than the lifecycle |
| Lifecycle.HardFinalizer | crates/contracts/src/state_machine.rs:82-175 | every allowed path to a terminal state ends CollectingArtifacts with an outcome, CleaningUp with finalized artifacts, then completed cleanup under the matching outcome |
| DeadLetters.KeysAreInjective | crates/contracts/src/worker.rs:285-302 | two keys of queue rows or dead letters render to the same text exactly when they are equal |
| DeadLetters.EventKeysAreInjective | crates/repository/src/jobs.rs:1396-1402 | so do any two keys of the event_key column, webhook deliveries included |
| DeadLetters.LetterKeysAreInjective | crates/contracts/src/worker.rs:266-302 | valid dead letters share an idempotency key exactly when they share reason family and stable identity |
| DeadLetters.ExhaustionKeyAgrees | crates/scheduler/src/dlq.rs:19-42 | the marker key looked up for an exhausted job is the key of its AttemptsExhausted letter and of no other letter |
| Repository.Repository.CreateJob | crates/repository/src/jobs.rs:45-211 | the statements in order (key check, replay lookup, counted quota, insert with its event and queue row) commit exactly Create or nothing; from then on every request under the key returns this job and changes nothing |
| Repository.Repository.RequestCancellation | crates/repository/src/jobs.rs:317-372 | lock, checks and guarded update commit exactly Cancel or nothing; the guard never fails after the checks, and repeating the request changes nothing and appends no event |
| Repository.Repository.ClaimJob | crates/repository/src/jobs.rs:440-575 | checks, counted quota, guarded reservation and guarded update commit exactly Claim or nothing; neither guard fails after the checks, the worker stays within capacity, and every other claim of the job is shut out |
| Repository.ReleaseCapacity | crates/repository/src/jobs.rs:1307-1319 | GREATEST(active_jobs - 1, 0) is the clamped decrement of one worker row and of nothing else |
| Repository.CountJobs | crates/repository/src/jobs.rs:464-476 | counting row by row gives the number of matching jobs |
| Repository.ReserveCapacity | crates/repository/src/jobs.rs:511-519 | the guarded increment takes a place exactly on an online worker with room |
| Repository.TransitionUpdate | crates/repository/src/jobs.rs:596-608 | the transition update writes the specified row exactly under its guard |
| Repository.RecoveryUpdate | crates/repository/src/jobs.rs:816-847 | the three recovery updates write the specified rows |
| Repository.Repository.TransitionJobState | crates/repository/src/jobs.rs:578-642 | contract check and guarded update commit exactly Move or nothing; the same request then loses the compare-and-swap |
| Repository.Repository.RecordJobResult | crates/repository/src/jobs.rs:644-733 | checks and guarded update commit exactly Report or nothing; after the checks the guard fails only on an expired lease, the same result again rewrites no row, and another outcome is refused |
| Repository.Repository.RecoverStaleJob | crates/repository/src/jobs.rs:760-919 | snapshot match, staleness test and guarded update commit exactly Recover or nothing; the guard never fails after the match, and the same snapshot is never recovered from twice; when and what is `RecoveryExactly` and `RecoveryLeaves` |
| Repository.Repository.UpsertWorker | crates/repository/src/workers.rs:18-49 | registration performs the Register transaction |
| Repository.Repository.RecordHeartbeat | crates/repository/src/workers.rs:51-168 | the checks and the loop over lease extensions perform the Beat transaction, rows and receipt |
| Repository.Repository.EnqueueJobDeadLetter | crates/repository/src/outbox.rs:20-29 | enqueueing inserts the letter once under its identity |
| Repository.Repository.MarkOutboxPublished | crates/repository/src/outbox.rs:133-155 | marking commits exactly MarkPublished or nothing; afterwards every attempt to mark, lease or retry the row is refused |
| Repository.ReceiptPartitions | crates/repository/src/workers.rs:121-168 | every requested extension is reported in exactly one of the three lists of the receipt |
| Runs.StepChanges | crates/repository/src/jobs.rs:317-919 | every transaction changes every existing row by one of seven lawful changes, each with its guard |
| Runs.StepKeys | crates/repository/src/jobs.rs:45-211 | rows are never deleted and only an accepted creation adds one |
| Invariant.RowStaysOk | migrations/0003_workers_jobs.up.sql:157-226 | the lifecycle facts and the CHECK constraints of a row survive every lawful change |
| Invariant.SettledForGood | crates/repository/src/jobs.rs:797-847 | a job with no lease that is not queued stays so, keeps its outcome and attempts, and only moves forward |
| Invariant.ReleaseIsExact | crates/repository/src/jobs.rs:1307-1319 | when a held lease ends the worker counter is positive, so the clamp has no effect |
| Invariant.LettersReplay | crates/scheduler/src/reconciler.rs:429-441 | every exhaustion letter that anyone but recovery enqueues finds its row already there |
| Invariant.RunsAreOk | crates/repository/src/jobs.rs:45-919 | the whole invariant holds in every state of every run |
| Guarantees.ReservationsAreConserved | crates/repository/src/jobs.rs:511-543 | active_jobs equals the number of jobs leased on the worker and never exceeds its capacity |
| Guarantees.ReservationsAreReturned | crates/repository/src/jobs.rs:626-630 | whenever a job loses its lease its worker's counter goes down by exactly one |
| Guarantees.QuotasHold | crates/repository/src/jobs.rs:464-485 | running and outstanding jobs of a project never exceed its quotas |
| Guarantees.IndexIsPermanent | crates/repository/src/jobs.rs:55-105 | an idempotency key keeps pointing at the job it created |
| Guarantees.CreationIsIdempotent | crates/repository/src/jobs.rs:55-211 | a later request under a used key returns the original job and changes nothing, however full the project is; one queued event, one queue row |
| Guarantees.EndedLeasesStayEnded | crates/repository/src/jobs.rs:776-847 | a generated lease that a job does not hold is never held by it again |
| Guarantees.Fencing | crates/repository/src/jobs.rs:604-608 | after a lease has ended no transition, result or heartbeat that carries it changes the job |
| Guarantees.LeasesAreExclusive | crates/repository/src/jobs.rs:511-543 | no two jobs hold the same lease |
| Guarantees.AttemptsAreBounded | crates/repository/src/jobs.rs:525-530 | the attempt counter counts the accepted claims, and no job is claimed more than max_run_attempts times |
| Guarantees.ExhaustionIsSingle | crates/repository/src/jobs.rs:892-909 | a job is exhausted at most once, and exactly when its exhaustion row exists |
| Guarantees.MarkersCarryMaximum | crates/repository/src/outbox.rs:224-271 | an exhaustion row always carries max_run_attempts, so a job has at most one |
| Guarantees.ExhaustionLettersReplay | crates/scheduler/src/reconciler.rs:429-441 | enqueueing an exhaustion letter changes nothing in any reachable state |
| Guarantees.MarkersAlwaysMatch | crates/scheduler/src/dlq.rs:24-42 | every exhaustion row found by key matches its job and attempt, and the job is settled |
| Guarantees.StateChangesAreContractEdges | crates/repository/src/jobs.rs:596-608 | apart from requeueing, every state change in a run is one the contract allows on the evidence then in the row |
| Guarantees.CancellationIsAnEdge | crates/repository/src/jobs.rs:322-347 | cancellation is accepted exactly where no outcome is pending and the contract allows the edge into collection |
| Guarantees.LateRowsAreComplete | migrations/0003_workers_jobs.up.sql:177-226 | late states have an outcome, CleaningUp has artifacts, terminal rows have matching outcome, full evidence and no lease |
| Guarantees.ChecksCatchOnlyCleanup | migrations/0003_workers_jobs.up.sql:178-180 | a row constraint of the model rejects a fenced transition if and only if its evidence claims cleanup without artifacts |
| Witnesses.CleanupConstraintDoesReject | migrations/0003_workers_jobs.up.sql:178-180 | a reachable database in which the constraint rejects an allowed, fenced transition |
| Guarantees.OtherTransactionsPassChecks | migrations/0003_workers_jobs.up.sql:172-226 | no other transaction, the unguarded finalizing transitions included, is ever rejected by a row constraint of the model |
| Guarantees.EventLogAgrees | crates/repository/src/jobs.rs:1321-1368 | the last state event of a job is its current state |
| Guarantees.TerminalIsFinal | crates/contracts/src/state_machine.rs:82-90 | a terminal row never changes again |
| Guarantees.SettledStaysSettled | crates/repository/src/jobs.rs:797-847 | settlement is permanent over runs |
| Guarantees.CancellationIsSticky | crates/repository/src/jobs.rs:317-372 | once Cancelled is pending it stays, the job is not queued, claimed or extended, and can only end Cancelled |
| Guarantees.ClaimantCanProceed | crates/repository/src/jobs.rs:511-575 | the winner of a claim can make its first transition under it at any time before it expires |
| Guarantees.ExtensionsHold | crates/repository/src/workers.rs:125-142 | a lease reported as extended is live for the whole extension |
| Guarantees.RequeueRestoresNewRow | crates/repository/src/jobs.rs:816-847 | in the columns of the model a requeued row is the row as created, but for its attempt count |
| Guarantees.ResultSticks | crates/repository/src/jobs.rs:644-733 | unless recovery takes the job away, an accepted result stays the pending outcome and decides the terminal state |
| TransactionLaws.RecoveryExactly | crates/repository/src/jobs.rs:776-847 | in every reachable database recovery takes a lease if and only if the row is still as the scan saw it and its expiry or its worker's heartbeat is at or before the cut-off; otherwise the row is untouched |
| TransactionLaws.RecoveryLeaves | crates/repository/src/jobs.rs:797-909 | a cancelled job goes on to its end, one with attempts left back to the queue, an exhausted one to InfraFailed with its letter in the outbox; exactly one place of the worker is returned |
| TransactionLaws.ClaimExactly | crates/repository/src/jobs.rs:440-543 | a fresh lease is given if and only if the job is queued, its project has room, and the worker is online, has room, was heard of within staleAfter and fits; otherwise nothing changes |
| TransactionLaws.ClaimLeaves | crates/repository/src/jobs.rs:511-575 | the claimed row column by column, one place taken, and no other row |
| TransactionLaws.BeatIsRecorded | crates/repository/src/workers.rs:51-120 | an accepted heartbeat records its time and capacity on its worker and on no other; a refused one changes nothing |
| TransactionLaws.BeatExtendsExactly | crates/repository/src/workers.rs:121-142 | exactly the leases asked for that are live and without a pending outcome get the heartbeat's time plus the ttl as expiry |
| TransactionLaws.ReceiptExactly | crates/repository/src/workers.rs:121-168 | each lease asked for is reported as extended, cancelled or stale by what its row said before the heartbeat |
| TransactionLaws.CancellationExactly | crates/repository/src/jobs.rs:317-347 | which requests are accepted, repeats, conflicts or unknown, each an if-and-only-if over the row |
| TransactionLaws.CancellationLeaves | crates/repository/src/jobs.rs:339-372 | the job goes to CollectingArtifacts under Cancelled and keeps its lease; nothing else changes but the log |
| TransactionLaws.CreationExactly | crates/repository/src/jobs.rs:45-150 | a job is created if and only if the key is valid and unused, the project exists and has room, and the body is admissible |
| TransactionLaws.CreationLeaves | crates/repository/src/jobs.rs:107-211 | the new row, its key and its queue row, and nothing else |
| TransactionLaws.TransitionExactly | crates/repository/src/jobs.rs:578-642 | a worker's transition takes effect if and only if the contract allows it, the state and outcome agree, its lease is live, and it does not claim cleanup before artifacts |
| TransactionLaws.TransitionLeaves | crates/repository/src/jobs.rs:596-636 | evidence is added to what was known; a terminal state returns the lease and one place of the worker, which stays named |
| TransactionLaws.ResultExactly | crates/repository/src/jobs.rs:644-712 | a result is recorded if and only if it is consistent and comes under the live lease of a job with no other outcome |
| TransactionLaws.ResultLeaves | crates/repository/src/jobs.rs:690-733 | the outcome and the evidence are recorded on that row and nothing else changes |
| TransactionLaws.RegistrationExactly | crates/repository/src/workers.rs:18-49 | registration is refused exactly when the worker uses more than the new capacity or its runtimes are invalid, and keeps mode and use of a known worker |
| TransactionLaws.OutboxExactly | crates/repository/src/outbox.rs:83-189 | leasing takes any unpublished row; marking and retrying are for the dispatcher that holds it |
| TransactionLaws.LettersAreKept | crates/repository/src/outbox.rs:224-271 | a valid letter is in the outbox afterwards, and a row that was there is as it was |
| Lanes.PushOk | crates/scheduler/src/fairness.rs:278-291 | a push keeps the lane in order and adds exactly the entry |
| Lanes.PopIsSafe | crates/scheduler/src/fairness.rs:293-300 | the bucket of the ring's front project exists and is non-empty: the expect cannot fail |
| Lanes.PopOk | crates/scheduler/src/fairness.rs:293-310 | a pop takes exactly one entry of the front project and keeps ring, buckets and count synchronized |
| Lanes.PopYieldsLeast | crates/scheduler/src/fairness.rs:293-303 | the popped entry precedes all others of its project by (created_at, job_id) |
| Lanes.RemovedOk | crates/scheduler/src/fairness.rs:312-329 | a removal takes exactly the entry of the job and keeps the lane synchronized |
| Lanes.TouchedOk | crates/scheduler/src/fairness.rs:331-336 | a payload update exchanges one payload and nothing else |
| Fairness.NewIsOk | crates/scheduler/src/fairness.rs:118-158 | an accepted configuration gives an empty queue in order |
| Fairness.PushKeepsOk | crates/scheduler/src/fairness.rs:189-200 | an accepted push adds exactly the entry; a refused one changes nothing |
| Fairness.ScanSkips | crates/scheduler/src/fairness.rs:217-223 | the schedule loop stops at the first slot of the other lane when the lane under the cursor is empty |
| Fairness.PopServes | crates/scheduler/src/fairness.rs:205-224 | a pop of a non-empty queue takes the next entry of the overriding, scheduled or other lane, with the cursor where the loop leaves it |
| Fairness.AgedBatchJumps | crates/scheduler/src/fairness.rs:205-213 | if a held batch entry has waited the aging period and the last pop was not forced, the pop returns a batch entry, leaves the cursor and is forced |
| Fairness.ScheduleDecides | crates/scheduler/src/fairness.rs:215-224 | otherwise the pop is not forced and serves the lane under the cursor if it holds anything, and the other lane if not |
| Fairness.PopKeepsOk | crates/scheduler/src/fairness.rs:205-224 | a pop returns None exactly when the queue is empty, and otherwise removes exactly what it returns |
| Fairness.RemoveKeepsOk | crates/scheduler/src/fairness.rs:226-236 | a removal succeeds exactly for indexed jobs and removes exactly that entry |
| Fairness.TouchKeepsOk | crates/scheduler/src/fairness.rs:176-187 | payload updates keep every other field and every order |
| FairRuns.LanesWaitBoundedly | crates/scheduler/src/fairness.rs:205-224 | a lane with entries is passed over at most interactive_weight (batch) or 2*batch_weight+1 (interactive) times in a row, whatever is pushed, removed or overridden |
| FairRuns.ProjectsTakeTurns | crates/scheduler/src/fairness.rs:278-329 | a project at ring place k that keeps entries is served within k+1 pops of its lane |
| FairRuns.NobodyStarves | crates/scheduler/src/fairness.rs:205-310 | counting every pop of the queue, a project waits at most k turns of its lane plus one wait for the lane |
| FairRuns.PopIsFifo | crates/scheduler/src/fairness.rs:293-310 | a pop of the whole queue yields the least entry of its project and lane |
| FairRuns.SharesAreExact | crates/scheduler/src/fairness.rs:205-224 | over one cycle of pops with both lanes non-empty and no override each lane gets exactly its weight, from any cursor |
| FairRuns.AgedBatchIsServed | crates/scheduler/src/fairness.rs:202-214 | while an aged batch entry is held throughout, at most every second pop of any run serves Interactive |
| FairRuns.NothingIsLost | crates/scheduler/src/fairness.rs:189-243 | over any operations, held plus accepted equals popped or removed plus still held, as multisets |
| FairQueueObjects.LaneQueue.Position | crates/scheduler/src/fairness.rs:284-289 | binary search finds the insertion point of the sorted bucket |
| FairQueueObjects.LaneQueue.Push | crates/scheduler/src/fairness.rs:278-291 | the in-place push refines the lane specification |
| FairQueueObjects.LaneQueue.Pop | crates/scheduler/src/fairness.rs:293-310 | the in-place pop refines the lane specification |
| FairQueueObjects.LaneQueue.Remove | crates/scheduler/src/fairness.rs:312-329 | the search, removal and ring update refine the lane specification |
| FairQueueObjects.LaneQueue.OldestEnqueuedAt | crates/scheduler/src/fairness.rs:338-343 | the minimum insertion time over all entries, None exactly for an empty lane |
| FairQueueObjects.LaneQueue.Update | crates/scheduler/src/fairness.rs:331-336 | finding an entry and replacing its payload refines the lane specification |
| FairQueueObjects.Build | crates/scheduler/src/fairness.rs:118-158 | construction accepts and rejects exactly the configurations the specification does |
| FairQueueObjects.FairQueue.Contains | crates/scheduler/src/fairness.rs:172-174 | membership in the index is membership of an entry |
| FairQueueObjects.FairQueue.Push | crates/scheduler/src/fairness.rs:189-200 | the in-place push refines the specification and keeps the representation invariant |
| FairQueueObjects.FairQueue.PopLane | crates/scheduler/src/fairness.rs:238-243 | one lane pop with index and count |
| FairQueueObjects.FairQueue.Pop | crates/scheduler/src/fairness.rs:205-224 | aging override and schedule loop refine the specification |
| FairQueueObjects.FairQueue.Remove | crates/scheduler/src/fairness.rs:226-236 | the in-place removal refines the specification |
| FairQueueObjects.FairQueue.Update | crates/scheduler/src/fairness.rs:176-181 | a payload update through the lookup refines the specification |
| Delivery.DecisionsFit | crates/scheduler/src/delivery.rs:43-80 | in every reachable state each delivery decision is taken in exactly the situation it is meant for |
| QueueSafety.ExcusedForGood | crates/scheduler/src/dispatcher.rs:246-338 | a reason to retire a message never lapses |
| QueueSafety.AcceptPlanIsOk | crates/scheduler/src/dispatcher.rs:246-402 | every plan of the dispatcher retires only what is excused at that point |
| QueueSafety.AdvisedPlanIsOk | crates/scheduler/src/advisory.rs:182-273 | every plan of the advisory handler retires only what is excused at that point |
| QueueSafety.RedriveExcuses | crates/scheduler/src/dispatcher.rs:655-680 | a confirmed redrive, new or deduplicated, leaves a higher message about the same job in the stream |
| QueueSafety.OfferPlansAreOk | crates/scheduler/src/dispatcher.rs:295-318 | of two sequences of a buffered job only the lower is acknowledged |
| QueueSafety.BindOrAckPlanIsOk | crates/scheduler/src/dispatcher.rs:526-559 | of two sequences bound to a lease only the lower is acknowledged |
| QueueSafety.ConfirmPlanIsOk | crates/scheduler/src/control.rs:418-428 | the acknowledgement of an ended job retires only messages of that job |
| QueueSafety.FinalizeAdvances | crates/scheduler/src/dispatcher.rs:561-602 | finalizing a queued cancellation reaches CleaningUp and then the terminal state before anything is acknowledged |
| QueueSafety.EffectKeepsQueue | crates/scheduler/src/dispatcher.rs:194-735 | every single effect of every handler keeps the queue invariant |
| QueueGuarantees.MoveKeepsQueue | crates/scheduler/src/advisory.rs:133-343 | so does every move: transactions, publishes, deliveries, claims with their bindings, lost acknowledgements, crashes |
| QueueGuarantees.HistoryIsARun | crates/scheduler/src/dispatcher.rs:340-515 | the database of every queue history goes through a run, so all guarantees of runs apply |
| QueueGuarantees.NoRunnableJobIsLost | crates/api/src/queue.rs:331-373 | while a job is queued or leased, its queue row is unpublished or the highest message naming it is not retired |
| QueueGuarantees.RetirementsAreJustified | crates/scheduler/src/dispatcher.rs:526-735 | a message is retired only when its dead letter is published, its job is over with no unpublished dead letter, or a higher message names the job; or by a replayed terminal transition for a terminal job |
| QueueGuarantees.RetirementHasCause | crates/scheduler/src/advisory.rs:199-273 | for a known job: terminal, or its dead letter published, or a higher message, at and after every retirement |
| QueueGuarantees.EarlyRetirementIsReplay | crates/scheduler/src/dispatcher.rs:604-650 | the last message of an exhausted job is retired before its dead letter is published if and only if the handler acknowledges a replayed terminal transition whose lease had it bound |
| QueueProgress.ReplayRetiresEarly | crates/scheduler/src/control.rs:285-290 | wherever such a delivery is bound and the dead letter unpublished, the replay does retire it |
| QueueWitnesses.EarlyRetirementHappens | crates/scheduler/src/control.rs:271-296 | a history that does so |
| QueueGuarantees.PoisonIsRecorded | crates/scheduler/src/dispatcher.rs:700-735 | a malformed message or one naming no job leaves the stream only after its dead letter is confirmed |
| QueueGuarantees.PublishedRowsAreInStream | crates/api/src/queue.rs:314-345 | a queue row is marked published only when the stream has a message about its job |
| QueueProgress.QueuedJobCanBeBuffered | crates/scheduler/src/dispatcher.rs:194-336 | from every reachable system with a queued job whose row is published, and with room for two deliveries under max_ack_pending, the handlers alone can bring the job into the buffer if and only if it is there or the buffer is not full |
| QueueProgress.TopIsBuffered | crates/scheduler/src/advisory.rs:133-273 | the three ways in, each within seven moves: delivery, replacement of a poison message, and the advisory's replacement of a message delivered max_deliver times |
| QueueProgress.FullStaysFull | crates/scheduler/src/dispatcher.rs:334-336 | no handler effect or delivery takes a job out of a full buffer or puts another in |
| QueueProgress.ReachableHasRoom | crates/scheduler/src/fairness.rs:189-200 | in every reachable system the buffer is within its capacity |
| QueueWitnesses.FullBufferHappens | crates/scheduler/src/dispatcher.rs:319-336 | a reachable system in which a published queued job cannot be brought into the buffer because another job fills it |
| QueueFairness.PushTracks | crates/scheduler/src/fairness.rs:189-200 | a push of the protocol is a push of the fair queue, refused as full or duplicate in the same cases |
| QueueFairness.PopTracks | crates/scheduler/src/fairness.rs:205-243 | what the fair queue gives out is in the protocol's buffer, with that delivery, and leaves it |
| QueueFairness.MoveTracks | crates/scheduler/src/dispatcher.rs:295-345 | every move of the protocol but a stop is an operation of the fair queue or leaves the buffer alone |
| QueueFairness.StretchTracks | crates/scheduler/src/dispatcher.rs:167-186 | so over any stretch of moves; each dispatch is one pop |
| QueueFairness.DispatchIsFair | crates/scheduler/src/dispatcher.rs:340-346 | however moves interleave, a project that keeps jobs in a lane of the buffer waits no more dispatches than its place in the ring allows |
| QueueFairness.LanesAreDispatched | crates/scheduler/src/dispatcher.rs:340-346 | a lane with jobs is passed over at most its bound of dispatches in a row |
| QueueProgress.HighestIsNotRedriven | crates/scheduler/src/dispatcher.rs:655-680 | the redrive id of the highest message of a job is never in the deduplication window |
| QueueProgress.BindOrAckIsRebind | crates/scheduler/src/dispatcher.rs:526-559 | what the dispatcher does with a redelivery is the registry operation of the acknowledgement model |
| QueueProgress.DropsAreRemovals | crates/scheduler/src/acknowledgements.rs:108-159 | so is every way a handler drops a binding |
| QueueOutcomes.ClaimBinds | crates/scheduler/src/dispatcher.rs:424-479 | a successful claim leaves the job bound to exactly its worker, lease and the sequence that was dispatched, which is the lease in the row |
| QueueOutcomes.RefusedClaimWaits | crates/scheduler/src/dispatcher.rs:447-467 | a refused claim changes no row, binding or plan: the entry stays in hand |
| QueueOutcomes.GivingUpRequeues | crates/scheduler/src/dispatcher.rs:510-524 | an entry no worker takes is buffered again with its delivery |
| QueueOutcomes.EndRetiresBound | crates/scheduler/src/control.rs:236-264 | when the worker has ended the job, exactly the bound sequence is retired and exactly that binding dropped |
| QueueOutcomes.CancellationRetiresBound | crates/scheduler/src/reconciler.rs:402-427 | so does the reconciler for a cancelled job |
| QueueOutcomes.ExhaustionRetiresBound | crates/scheduler/src/reconciler.rs:445-486 | and for an exhausted one whose letter is published |
| QueueOutcomes.OfferKeepsHigher | crates/scheduler/src/dispatcher.rs:295-318 | a second delivery of a buffered job leaves the buffer on the higher of the two sequences and acknowledges the lower |
| QueueOutcomes.RebindKeepsHigher | crates/scheduler/src/dispatcher.rs:526-559 | a delivery of a leased job leaves the lease bound to the higher of the two sequences and acknowledges the lower |
| QueueOutcomes.LeasedDeliveryIsBound | crates/scheduler/src/dispatcher.rs:255-278 | every truthful delivery of a leased job, live or expired, ends so |
| QueueOutcomes.QueuedDeliveryIsBuffered | crates/scheduler/src/dispatcher.rs:293-337 | every truthful delivery of a queued job is in the buffer afterwards, unless a higher one is |
| QueueOutcomes.QueuedEntryIsDispatched | crates/scheduler/src/dispatcher.rs:340-356 | a popped entry of a queued job stays in hand for claiming |
| QueueOutcomes.DecidedEntryIsDelivered | crates/scheduler/src/dispatcher.rs:356-403 | a popped entry whose job has ended, is leased, was cancelled unclaimed or contradicts the message is handled exactly as a fresh delivery |
| QueueOutcomes.HeldEntryIsBuffered | crates/scheduler/src/dispatcher.rs:383-389 | one whose job waits for recovery goes back into the buffer |
| QueueOutcomes.StrangeEntryIsBuried | crates/scheduler/src/dispatcher.rs:347-355 | one whose job has no row leaves its dead letter, and is retired exactly if that is published |
| QueueOutcomes.MalformedIsBuried | crates/scheduler/src/dispatcher.rs:212-228 | a malformed message gets its dead letter, and is retired exactly if that is published |
| QueueOutcomes.StrangerIsBuried | crates/scheduler/src/dispatcher.rs:229-245 | so does one that names no job |
| QueueOutcomes.PoisonDeliveryIsReplaced | crates/scheduler/src/dispatcher.rs:279-294 | one that contradicts the row is replaced by the row's own message, gets its dead letter, and is retired exactly if that is published |
| QueueOutcomes.CancelledDeliveryEnds | crates/scheduler/src/dispatcher.rs:561-602 | a delivery of a job cancelled before any attempt ends the job as Cancelled and is retired |
| QueueOutcomes.EndedMessageGoes | crates/scheduler/src/dispatcher.rs:604-650 | a delivery of an ended job is retired exactly unless the job was exhausted and its letter is unpublished |
| QueueOutcomes.AdvisedMessageIsReplaced | crates/scheduler/src/advisory.rs:263-304 | the advisory about a truthful message of a job still to be run retires it and leaves a new one on top |
| QueueOutcomes.EndedAdvisoryGoes | crates/scheduler/src/advisory.rs:199-230 | the advisory about a message of an ended job retires it exactly unless the job was exhausted and its letter is unpublished |
| QueueOutcomes.ExhaustedAdvisoryGoes | crates/scheduler/src/advisory.rs:246-261 | so does the one about a truthful message of a job that recovery has exhausted |
| QueueOutcomes.AdvisedPoisonIsReplaced | crates/scheduler/src/advisory.rs:231-245 | the one about a message that contradicts the row leaves the row's own message and the dead letter, and retires the message exactly if that is published |
| QueueOutcomes.AdvisedMalformedIsBuried | crates/scheduler/src/advisory.rs:156-181 | the one about a malformed message leaves its dead letter, and retires it exactly if that is published |
| QueueOutcomes.AdvisedStrangerIsBuried | crates/scheduler/src/advisory.rs:182-198 | so does the one about a message that names no job |
| QueueOutcomes.AdvisoryOfGoneIsIgnored | crates/scheduler/src/advisory.rs:147-155 | the one about a message that is gone changes nothing |
| Finalizer.DriveResultFinalizer | crates/scheduler/src/control.rs:349-416 | the six-pass loop computes the recursive drive |
| Finalizer.TransitionIsLegal | crates/scheduler/src/control.rs:365-395 | under a live lease a pass's transition is refused only by a lost race or, exactly when the outcome is inadmissible, by the contract |
| Finalizer.PassAdvances | crates/scheduler/src/control.rs:365-414 | a pass that goes on has strictly advanced the job and still follows it |
| Finalizer.DriveSuffices | crates/scheduler/src/control.rs:349-416 | n passes suffice whenever the goal is fewer than n edges away |
| Finalizer.DriveReachesGoal | crates/scheduler/src/control.rs:349-416 | an accepted result has come as far as its evidence allows unless the lease was lost; a confirmed one is terminal under its outcome |
| Finalizer.BudgetIsExact | crates/scheduler/src/control.rs:361-415 | some interference exhausts the six passes if and only if the goal is six or more edges away and the outcome is admissible |
| Finalizer.ExpiredLeaseExhausts | crates/scheduler/src/control.rs:405-415 | an expired, unrecovered lease uses up all passes and changes nothing |
| Witnesses.BudgetDoesRunOut | crates/scheduler/src/control.rs:349-416 | a reachable database and an interference that use up the six passes under a live lease |
| Finalizer.QuietDriveFinishes | crates/scheduler/src/control.rs:349-416 | left alone, the finalizer takes every admissible result exactly as far as its evidence goes |
| Finalizer.LostToTheEnd | crates/scheduler/src/control.rs:385-404 | a pass that loses its race to the end of the job is confirmed exactly if the job ended under this outcome and worker |
| Finalizer.LostToAnother | crates/scheduler/src/control.rs:397-411 | one that finds the job gone or not under its lease is a stale lease |
| EventLog.LogsAreOk | crates/repository/src/jobs.rs:1321-1368 | in every history uncommitted sequences of a job exceed its committed ones, which are ordered |
| EventLog.LaterCommitsAreLarger | crates/repository/src/jobs.rs:1334-1345 | an event that becomes visible has a larger sequence than every visible event of its job |
| EventLog.PageContinues | crates/repository/src/jobs.rs:936-957 | a page read from the cursor is exactly the next events of the job |
| EventLog.EventStream.NextEvent | crates/api/src/events.rs:81-156 | the polling loop computes the sequence of turns up to the first event or close |
| EventLog.StreamIsPrefix | crates/api/src/events.rs:81-156 | what a connection has sent is always a gap-free, duplicate-free prefix of the job's events after Last-Event-ID |
| EventLog.ClosesExactly | crates/api/src/events.rs:84-155 | a turn closes the connection if and only if a terminal event was the last sent, the server stops, a poll or an encoding fails, or there is nothing to send and the job is not running |
| EventLog.UnreadEventsAreSent | crates/api/src/events.rs:84-118 | while the job has events not yet sent and no terminal one was sent last, two uninterrupted turns send the first of them |
| EventLog.ReconnectContinues | crates/api/src/events.rs:158-174 | reconnecting with the last received sequence continues exactly after it |
| Acknowledgements.AckRegistry.Bind | crates/scheduler/src/acknowledgements.rs:59-61 | binds the job and touches no other |
| Acknowledgements.AckRegistry.Binding | crates/scheduler/src/acknowledgements.rs:63-77 | found only under the exact worker and lease |
| Acknowledgements.AckRegistry.Take | crates/scheduler/src/acknowledgements.rs:143-159 | removes a binding only under its exact worker and lease |
| Acknowledgements.AckRegistry.Nak | crates/scheduler/src/acknowledgements.rs:128-141 | the binding is dropped whether or not the server hears of it |
| Acknowledgements.AckRegistry.ConfirmAck | crates/scheduler/src/acknowledgements.rs:94-124 | the loop computes the confirmation under the others' operations |
| Acknowledgements.BoundSequencesGrow | crates/scheduler/src/dispatcher.rs:526-559 | while a lease stays bound its sequence never decreases |
| Acknowledgements.SequenceDropsExactly | crates/scheduler/src/dispatcher.rs:534-557 | the bound sequence is lower in the end than in the beginning if and only if the job was unbound from the lease at some point and every rebind since carries a lower sequence |
| QueueWitnesses.SequenceDoesDrop | crates/scheduler/src/dispatcher.rs:246-263 | a history in which a lease is bound to sequence 1 and later to sequence 0, by a delivery looked at before its job ended |
| Acknowledgements.ConfirmRemovesOnlyConfirmed | crates/scheduler/src/acknowledgements.rs:94-124 | confirming removes nothing but the binding whose sequence the server confirmed |
| Acknowledgements.SuccessMeansConfirmed | crates/scheduler/src/acknowledgements.rs:94-124 | success leaves the job unbound with its first sequence confirmed |
| Acknowledgements.ConfirmIsBounded | crates/scheduler/src/acknowledgements.rs:101-123 | the loop needs at most one round more than there are redrives |
| Acknowledgements.QuietConfirmationSucceeds | crates/scheduler/src/acknowledgements.rs:94-118 | undisturbed, one confirmed round removes exactly the binding |
| Reaper.RuntimeReconciler.Observe | crates/scheduler/src/reconciler.rs:266-293 | the observation kept and the first-seen time returned |
| Reaper.RuntimeReconciler.ReconcileRuntimes | crates/scheduler/src/reconciler.rs:201-264 | one pass over the inventory: observations, remaining jobs and removal count |
| Reaper.RemainingIsExact | crates/scheduler/src/reconciler.rs:239-257 | a job is reported as having a runtime exactly when one of its runtimes was not removed |
| Reaper.MemoryReaper.ReapResource | crates/scheduler/src/reaper.rs:176-187 | a runtime is deleted only under its exact identity |
| Reaper.ObservationsAreHonest | crates/scheduler/src/reconciler.rs:266-293 | every kept observation was unsafe in its first pass and in every inventoried pass since |
| Reaper.ReapNeedsGrace | crates/scheduler/src/reaper.rs:55-80 | reaping needs a pass at least the grace period ago and every inventoried pass since to have seen the same runtime unowned |
| Reaper.OrphansAreReaped | crates/scheduler/src/reconciler.rs:209-258 | a runtime that lingers unowned through the grace period is reaped in the next pass that finds it so |
| Reaper.UnownedStaysUnowned | crates/scheduler/src/reconciler.rs:295-316 | a runtime of a generated lease once found unowned stays so: at every later moment its job has no row, is terminal, or names another worker or lease |
| Reaper.LookupIsExact | crates/scheduler/src/reconciler.rs:295-316 | the lookup finds a runtime unowned if and only if its job has no row, is terminal, or names another worker or lease |
| Reaper.OwnedIsKept | crates/scheduler/src/reconciler.rs:209-293 | while a non-terminal row names the runtime's worker and lease, a pass that looked it up keeps it and forgets what it observed of it |
| Reaper.ReapIsSafe | crates/scheduler/src/reconciler.rs:215-222 | what a pass decides to delete has, at that and every later moment of the run, a job with no row, a terminal one, or one that names another worker or lease |

## Left out

- Wire formats, JSON and header encoding, NATS, Docker, S3, HTTP and SQL drivers: they appear as single effects that happen, fail or are lost.
- Upload, profile, worker-compatibility, runtime-list and artifact-id checks: booleans of the requests, since each is a field comparison.
- Failure text, progress times, started/finished/updated timestamps and metrics: they influence no decision modelled here.
- Webhook outbox rows, debug sessions, artifacts and uploads tables, list_jobs and the other listings: separate tables or read-only pages.
- append_job_event: no caller outside tests; the event log model covers its lock and insert.
- find_stale_jobs: recovery is proved for any claimed snapshot, since it checks the snapshot again.
- Outbox lease timeouts and availability times: a row can be leased again at any time in the model, which allows more than the timeouts do.
- Batch limits and counters of dispatch_once and run_once: loops around the modelled steps.
- Acknowledge, terminate and delete are one retirement; Progress acknowledgements have no effect in the model.
- Guarantees.ChecksCatchOnlyCleanup: covers the constraints of the model; those that order times (last_lease_extended_at, started_at, finished_at; migrations/0003_workers_jobs.up.sql:157-171, 227-232) are left out with their columns, and a database clock that goes back could violate them.
- Guarantees.OtherTransactionsPassChecks: likewise covers the constraints of the model only.
- QueueProgress.QueuedJobCanBeBuffered: assumes room for two more deliveries under max_ack_pending, because the consumer's accounting of pending messages is the server's.
- Guarantees.RequeueRestoresNewRow: does not say that started_at is kept across a requeue, because that column is not part of the model.
- EventLog.StreamIsPrefix: does not say that the terminal event is always delivered, because the empty poll and the status lookup are two reads (crates/api/src/events.rs:110-131).
- Classification of replayed transitions and results in the control plane: branch-level answers; their acknowledgements are the WorkerFinished and ReplayedTerminal moves of `QueueProtocol`.
