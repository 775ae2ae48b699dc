/** What each transaction does in every reachable database, told in the columns of the rows: exactly
    when it takes effect, and what it leaves. */
module TransactionLaws {
  import opened Base
  import opened Lifecycle
  import opened DeadLetters
  import opened Store
  import opened Runs
  import opened Invariant

  lemma ReachableRow(w: World, j: JobId)
    requires Reachable(w) && j in w.db.jobs
    ensures RowOk(w.db.jobs[j], w.maxAttempts) && w.maxAttempts > 0
  {
    ReachableIsOk(w);
  }

  lemma ReachableLease(w: World, j: JobId)
    requires Reachable(w) && j in w.db.jobs && w.db.jobs[j].lease.Some?
    ensures w.db.jobs[j].worker.Some? && w.db.jobs[j].worker.value in w.db.workers
    ensures w.db.jobs[j].lease.value in w.issued && w.db.workers[w.db.jobs[j].worker.value].active > 0
  {
    ReachableIsOk(w);
    ReleaseIsExact(w, j);
  }

  /** One place of the worker is free again, and nothing else about any worker has changed. */
  predicate OneLess(workers: map<WorkerId, WorkerRow>, workers': map<WorkerId, WorkerRow>, worker: WorkerId) {
    && worker in workers && worker in workers' && workers[worker].active == workers'[worker].active + 1
    && workers' == workers[worker := workers[worker].(active := workers'[worker].active)]
  }

  // ----- Recovery -----

  /** The scan saw the row as it still is. */
  predicate SeenAsIs(row: JobRow, stale: StaleJob) {
    && row.worker == Some(stale.worker) && row.lease == Some(stale.lease) && row.state == stale.state
    && row.attempts == stale.attempts && row.expires == Some(stale.expires)
  }

  /** The lease had run out, or its worker has not been heard of, at the cut-offs of the scan. */
  predicate GoneStale(w: World, row: JobRow, stale: StaleJob) {
    || (row.expires.Some? && row.expires.value <= stale.expiredBefore)
    || (row.worker.Some? && row.worker.value in w.db.workers
        && w.db.workers[row.worker.value].heartbeatAt <= stale.heartbeatBefore)
  }

  /** A live lease on a worker that is heard of is left alone: recovery takes a lease exactly when
      the row is still as it was seen and the lease or its worker is stale. */
  lemma RecoveryExactly(w: World, stale: StaleJob, j: JobId)
    requires Reachable(w) && j in w.db.jobs && w.db.jobs[j].lease.Some?
    ensures j in After(w, DoRecover(stale)).db.jobs
    ensures var row := w.db.jobs[j];
      After(w, DoRecover(stale)).db.jobs[j].lease.None? <==>
        j == stale.job && SeenAsIs(row, stale) && GoneStale(w, row, stale)
    ensures After(w, DoRecover(stale)).db.jobs[j].lease.Some? ==> After(w, DoRecover(stale)).db.jobs[j] == w.db.jobs[j]
  {
    ReachableRow(w, j);
    ReachableLease(w, j);
  }

  /** Where a recovered job goes: a cancelled one on to its end, one with attempts left back to the
      queue with nothing kept but its attempts, and an exhausted one on to its failure with its dead
      letter recorded. */
  lemma RecoveryLeaves(w: World, stale: StaleJob)
    requires Reachable(w) && stale.job in w.db.jobs
    requires SeenAsIs(w.db.jobs[stale.job], stale) && GoneStale(w, w.db.jobs[stale.job], stale)
    ensures stale.job in After(w, DoRecover(stale)).db.jobs
    ensures var row, row' := w.db.jobs[stale.job], After(w, DoRecover(stale)).db.jobs[stale.job];
      && row'.worker.None? && row'.lease.None? && row'.expires.None? && row'.attempts == row.attempts
      && (if row.pending == Some(JobOutcome.Cancelled) then
            row'.pending == row.pending && row'.state == (if row.state.CleaningUp? then CleaningUp else CollectingArtifacts)
          else if row.attempts < w.maxAttempts then
            row'.state.Queued? && row'.pending.None? && !row'.artifacts && !row'.cleanup
          else
            row'.pending == Some(JobOutcome.InfraFailed)
            && row'.state == (if row.state.CleaningUp? then CleaningUp else CollectingArtifacts)
            && ExhaustedKey(stale.job, row.attempts) in After(w, DoRecover(stale)).db.outbox)
    ensures OneLess(w.db.workers, After(w, DoRecover(stale)).db.workers, stale.worker)
  {
    ReachableRow(w, stale.job);
    ReachableLease(w, stale.job);
  }

  // ----- Claims -----

  /** A worker that may take one more job now: online, with room, heard of recently, and fitting. */
  predicate CanTake(worker: WorkerRow, claim: ClaimRequest) {
    && worker.mode.Online? && worker.active < worker.capacity
    && claim.now - worker.heartbeatAt <= claim.staleAfter && claim.compatible
  }

  predicate Claimable(w: World, claim: ClaimRequest) {
    && claim.job in w.db.jobs && w.db.jobs[claim.job].state.Queued?
    && w.db.jobs[claim.job].project in w.db.projects
    && |Rows(w.db.jobs, IsRunning(w.db.jobs[claim.job].project))| < w.db.projects[w.db.jobs[claim.job].project].maxConcurrent
    && claim.worker in w.db.workers && CanTake(w.db.workers[claim.worker], claim)
    && claim.expires > claim.now && claim.staleAfter > 0
  }

  lemma FreshLeaseIsNobodys(w: World, lease: LeaseId, j: JobId)
    requires Reachable(w) && lease !in w.issued && j in w.db.jobs
    ensures w.db.jobs[j].lease != Some(lease)
  {
    if w.db.jobs[j].lease.Some? { ReachableLease(w, j); }
  }

  /** A claim gives the lease exactly when a queued job of a project with room meets a worker that
      can take it; nothing else about the database changes but the job, the worker's count and the log. */
  lemma ClaimExactly(w: World, claim: ClaimRequest)
    requires Reachable(w) && claim.lease !in w.issued
    ensures var db' := After(w, DoClaim(claim)).db;
      (claim.job in db'.jobs && db'.jobs[claim.job].lease == Some(claim.lease)) <==> Claimable(w, claim)
    ensures !Claimable(w, claim) ==> After(w, DoClaim(claim)).db == w.db
  {
    if claim.job in w.db.jobs {
      ReachableRow(w, claim.job);
      FreshLeaseIsNobodys(w, claim.lease, claim.job);
    }
  }

  lemma ClaimLeaves(w: World, claim: ClaimRequest)
    requires Reachable(w) && claim.lease !in w.issued && Claimable(w, claim)
    ensures var row, db' := w.db.jobs[claim.job], After(w, DoClaim(claim)).db;
      && db'.jobs == w.db.jobs[claim.job :=
           JobRow(row.project, row.key, row.spec, Claimed, None, None, false, row.cleanup,
                  Some(claim.worker), Some(claim.lease), Some(claim.expires), row.attempts + 1)]
      && db'.workers == w.db.workers[claim.worker :=
           w.db.workers[claim.worker].(active := w.db.workers[claim.worker].active + 1)]
      && db'.outbox == w.db.outbox && db'.keys == w.db.keys
  {
    ReachableRow(w, claim.job);
  }

  // ----- Heartbeats -----

  predicate Acceptable(w: World, beat: Heartbeat) {
    && beat.ttl > 0 && beat.reportedActive <= beat.capacity && beat.runtimesValid
    && beat.worker in w.db.workers && w.db.workers[beat.worker].active <= beat.capacity
  }

  /** An accepted heartbeat is recorded at its time with its capacity, and changes no other worker. */
  lemma BeatIsRecorded(w: World, beat: Heartbeat)
    ensures Acceptable(w, beat) ==>
      After(w, DoBeat(beat)).db.workers == w.db.workers[beat.worker :=
        WorkerRow(w.db.workers[beat.worker].mode, beat.capacity, w.db.workers[beat.worker].active, beat.now)]
    ensures !Acceptable(w, beat) ==> After(w, DoBeat(beat)).db == w.db
  {}

  /** The heartbeat asks for the lease that the row has, and the row may still run under it. */
  predicate Extends(row: JobRow, j: JobId, beat: Heartbeat, n: nat)
    requires n <= |beat.extensions|
  {
    && row.worker == Some(beat.worker) && row.lease.Some? && Extension(j, row.lease.value) in beat.extensions[..n]
    && row.expires.Some? && row.expires.value > beat.now && row.pending.None?
    && !row.state.Queued? && !row.state.Terminal()
  }

  lemma {:induction false} ExtendedRows(jobs: map<JobId, JobRow>, beat: Heartbeat, j: JobId, n: nat)
    requires n <= |beat.extensions| && j in jobs && beat.ttl > 0
    ensures j in ExtendMany(jobs, beat, n)
    ensures ExtendMany(jobs, beat, n)[j] ==
      if Extends(jobs[j], j, beat, n) then jobs[j].(expires := Some(beat.now + beat.ttl)) else jobs[j]
  {
    if n > 0 {
      ExtendedRows(jobs, beat, j, n - 1);
      assert beat.extensions[..n] == beat.extensions[..n - 1] + [beat.extensions[n - 1]];
    }
  }

  /** An accepted heartbeat moves the expiry of exactly the leases it asks for that are live and not
      about to end, and of those to its time and the ttl; a cancelled job is not extended. */
  lemma BeatExtendsExactly(w: World, beat: Heartbeat, j: JobId)
    requires j in w.db.jobs && Acceptable(w, beat)
    ensures j in After(w, DoBeat(beat)).db.jobs
    ensures After(w, DoBeat(beat)).db.jobs[j] ==
      if Extends(w.db.jobs[j], j, beat, |beat.extensions|) then w.db.jobs[j].(expires := Some(beat.now + beat.ttl))
      else w.db.jobs[j]
  {
    ExtendedRows(w.db.jobs, beat, j, |beat.extensions|);
  }

  /** What the worker is told about one of its leases. */
  predicate ToldToCancel(jobs: map<JobId, JobRow>, beat: Heartbeat, x: Extension) {
    && x.job in jobs && jobs[x.job].worker == Some(beat.worker) && jobs[x.job].lease == Some(x.lease)
    && jobs[x.job].pending == Some(JobOutcome.Cancelled) && !jobs[x.job].state.Terminal()
  }

  predicate ToldToGoOn(jobs: map<JobId, JobRow>, beat: Heartbeat, x: Extension) {
    && x.job in jobs && jobs[x.job].worker == Some(beat.worker) && jobs[x.job].lease == Some(x.lease)
    && jobs[x.job].expires.Some? && jobs[x.job].expires.value > beat.now && jobs[x.job].pending.None?
    && !jobs[x.job].state.Queued? && !jobs[x.job].state.Terminal()
  }

  lemma ExtensionsKeepAnswers(jobs: map<JobId, JobRow>, beat: Heartbeat, n: nat, x: Extension)
    requires n <= |beat.extensions| && beat.ttl > 0
    ensures Extendable(ExtendMany(jobs, beat, n), beat, x) <==> ToldToGoOn(jobs, beat, x)
    ensures CancelledUnder(ExtendMany(jobs, beat, n), beat, x) <==> ToldToCancel(jobs, beat, x)
  {
    ExtendedKeys(jobs, beat, n);
    if x.job in jobs { ExtendedRows(jobs, beat, x.job, n); }
  }

  lemma {:induction false} ExtendedKeys(jobs: map<JobId, JobRow>, beat: Heartbeat, n: nat)
    requires n <= |beat.extensions|
    ensures ExtendMany(jobs, beat, n).Keys == jobs.Keys
  {
    if n > 0 { ExtendedKeys(jobs, beat, n - 1); }
  }

  /** Every lease asked for is answered by what its row said before the heartbeat: go on, cancel, or,
      in every other case, stale. */
  lemma {:induction false} ReceiptExactly(jobs: map<JobId, JobRow>, beat: Heartbeat, n: nat, x: Extension)
    requires n <= |beat.extensions| && beat.ttl > 0 && x in beat.extensions[..n]
    ensures x in ReceiptFor(jobs, beat, n).extended <==> ToldToGoOn(jobs, beat, x)
    ensures x in ReceiptFor(jobs, beat, n).cancelRequested <==> ToldToCancel(jobs, beat, x)
    ensures x in ReceiptFor(jobs, beat, n).rejected <==> !ToldToGoOn(jobs, beat, x) && !ToldToCancel(jobs, beat, x)
  {
    var last := beat.extensions[n - 1];
    assert beat.extensions[..n] == beat.extensions[..n - 1] + [last];
    ExtensionsKeepAnswers(jobs, beat, n - 1, last);
    if x in beat.extensions[..n - 1] { ReceiptExactly(jobs, beat, n - 1, x); } else { NotYetAnswered(jobs, beat, n - 1, x); }
  }

  lemma {:induction false} NotYetAnswered(jobs: map<JobId, JobRow>, beat: Heartbeat, n: nat, x: Extension)
    requires n <= |beat.extensions| && x !in beat.extensions[..n]
    ensures x !in ReceiptFor(jobs, beat, n).extended && x !in ReceiptFor(jobs, beat, n).cancelRequested
    ensures x !in ReceiptFor(jobs, beat, n).rejected
  {
    if n > 0 {
      assert beat.extensions[..n] == beat.extensions[..n - 1] + [beat.extensions[n - 1]];
      NotYetAnswered(jobs, beat, n - 1, x);
    }
  }

  // ----- Cancellation -----

  /** A request is accepted for a job that runs or waits with no outcome, repeated without effect for
      one already cancelled, and a conflict for one that has ended or has another outcome coming. */
  lemma CancellationExactly(w: World, job: JobId)
    requires Reachable(w)
    ensures Cancel(w.db, job).1 == Err(NotFound) <==> job !in w.db.jobs
    ensures Cancel(w.db, job).1 == Ok(true) <==>
      job in w.db.jobs && !w.db.jobs[job].state.Terminal() && w.db.jobs[job].pending.None?
    ensures Cancel(w.db, job).1 == Ok(false) <==>
      job in w.db.jobs && !w.db.jobs[job].state.Terminal() && w.db.jobs[job].pending == Some(JobOutcome.Cancelled)
    ensures Cancel(w.db, job).1 == Err(Conflict) <==>
      job in w.db.jobs
      && (w.db.jobs[job].state.Terminal()
          || (w.db.jobs[job].pending.Some? && w.db.jobs[job].pending != Some(JobOutcome.Cancelled)))
    ensures Cancel(w.db, job).1 != Ok(true) ==> Cancel(w.db, job).0 == w.db
  {
    if job in w.db.jobs { ReachableRow(w, job); }
  }

  /** An accepted one sends the job to artifact collection under Cancelled, with its lease. */
  lemma CancellationLeaves(w: World, job: JobId)
    requires Reachable(w) && Cancel(w.db, job).1 == Ok(true)
    ensures job in w.db.jobs && Cancel(w.db, job).0.jobs == w.db.jobs[job :=
      w.db.jobs[job].(state := CollectingArtifacts, pending := Some(JobOutcome.Cancelled))]
    ensures |Cancel(w.db, job).0.events| == |w.db.events| + 1
    ensures Cancel(w.db, job).0.workers == w.db.workers && Cancel(w.db, job).0.outbox == w.db.outbox
  {}

  // ----- Creation -----

  /** A job is created exactly for a valid, unused key in a project with room and an admissible body. */
  lemma CreationExactly(w: World, request: CreateRequest, id: JobId)
    requires Reachable(w) && id !in w.db.jobs
    ensures id in Create(w.db, request, id).0.jobs <==>
      && ValidIdempotencyKey(request.key) && (request.project, request.key) !in w.db.keys
      && request.project in w.db.projects && request.admissible
      && |Rows(w.db.jobs, IsOutstanding(request.project))| < w.db.projects[request.project].maxOutstanding
    ensures id !in Create(w.db, request, id).0.jobs ==> Create(w.db, request, id).0 == w.db
  {
    ReachableIsOk(w);
    NoQueueRowYet(w, id);
  }

  lemma NoQueueRowYet(w: World, id: JobId)
    requires OutboxOk(w) && id !in w.db.jobs
    ensures QueuedKey(id) !in w.db.outbox
  {}

  /** It starts queued and unattempted, with a queue row to be published and its key in the index. */
  lemma CreationLeaves(w: World, request: CreateRequest, id: JobId)
    requires Reachable(w) && id !in w.db.jobs && id in Create(w.db, request, id).0.jobs
    ensures var db' := Create(w.db, request, id).0;
      && db'.jobs == w.db.jobs[id := JobRow(request.project, request.key, request.spec, Queued, None, None,
                                            false, false, None, None, None, 0)]
      && db'.keys == w.db.keys[(request.project, request.key) := id]
      && db'.outbox == w.db.outbox[QueuedKey(id) := OutboxRow(None, None, false)]
      && db'.workers == w.db.workers && |db'.events| == |w.db.events| + 1
  {}

  // ----- Transitions and results -----

  predicate UnderGuard(row: JobRow, worker: WorkerId, lease: LeaseId, now: Time) {
    row.worker == Some(worker) && row.lease == Some(lease) && row.expires.Some? && row.expires.value > now
  }

  /** A worker's transition takes effect exactly when the contract allows it, the job is in the state
      it starts from, under the worker's live lease, with no other outcome pending, and it does not
      claim cleanup before artifacts. */
  lemma TransitionExactly(w: World, move: MoveRequest, worker: WorkerId, lease: LeaseId)
    requires Reachable(w) && move.guard == Some(Guard(worker, lease))
    ensures Move(w.db, move).1.Ok? <==>
      && ValidateTransition(move.from, move.to, move.evidence).Allowed?
      && move.job in w.db.jobs && w.db.jobs[move.job].state == move.from
      && UnderGuard(w.db.jobs[move.job], worker, lease, move.now)
      && (move.evidence.pending.Some? && w.db.jobs[move.job].pending.Some? ==>
            w.db.jobs[move.job].pending == move.evidence.pending)
      && (move.evidence.cleanup ==> move.evidence.artifacts || w.db.jobs[move.job].artifacts)
    ensures Move(w.db, move).1.Err? ==> Move(w.db, move).0 == w.db
  {
    if move.job in w.db.jobs { ReachableRow(w, move.job); }
  }

  /** It leaves the new state with the evidence added to what was known; a terminal one gives its
      outcome and returns the lease and the worker's place, and the worker stays named. */
  lemma TransitionLeaves(w: World, move: MoveRequest)
    requires Reachable(w) && Move(w.db, move).1.Ok? && move.guard.Some?
    ensures move.job in w.db.jobs && move.job in Move(w.db, move).0.jobs
    ensures var row, row' := w.db.jobs[move.job], Move(w.db, move).0.jobs[move.job];
      && row'.state == move.to && row'.worker == row.worker && row'.attempts == row.attempts
      && (row'.pending.Some? <==> row.pending.Some? || move.evidence.pending.Some?)
      && (row.pending.Some? ==> row'.pending == row.pending)
      && (move.evidence.pending.Some? ==> row'.pending == move.evidence.pending)
      && (row'.artifacts <==> row.artifacts || move.evidence.artifacts)
      && (row'.cleanup <==> row.cleanup || move.evidence.cleanup)
      && (if move.to.Terminal() then row'.lease.None? && row'.expires.None? && row'.outcome == row'.pending
          else row'.lease == row.lease && row'.expires == row.expires && row'.outcome.None?)
    ensures !move.to.Terminal() ==> Move(w.db, move).0.workers == w.db.workers
    ensures move.to.Terminal() ==> OneLess(w.db.workers, Move(w.db, move).0.workers, move.guard.value.worker)
  {
    ReachableRow(w, move.job);
    ReachableLease(w, move.job);
  }

  /** A result is recorded exactly when it is consistent, names the job's artifacts, and comes under
      the live lease of a job that has no other outcome. */
  lemma ResultExactly(w: World, result: JobResult, now: Time)
    requires Reachable(w)
    ensures Report(w.db, result, now).1.Ok? <==>
      && (result.cleanup ==> result.artifacts) && !(result.outcome.Passed? && result.hasError) && result.artifactsKnown
      && result.job in w.db.jobs && UnderGuard(w.db.jobs[result.job], result.worker, result.lease, now)
      && (w.db.jobs[result.job].pending.None? || w.db.jobs[result.job].pending == Some(result.outcome))
    ensures Report(w.db, result, now).1.Err? ==> Report(w.db, result, now).0 == w.db
  {
    if result.job in w.db.jobs { ReachableRow(w, result.job); }
  }

  lemma ResultLeaves(w: World, result: JobResult, now: Time)
    requires Reachable(w) && Report(w.db, result, now).1.Ok?
    ensures result.job in w.db.jobs
    ensures var row, db' := w.db.jobs[result.job], Report(w.db, result, now).0;
      && db'.jobs == w.db.jobs[result.job :=
           row.(pending := Some(result.outcome), artifacts := row.artifacts || result.artifacts,
                cleanup := row.cleanup || result.cleanup)]
      && db'.workers == w.db.workers && db'.outbox == w.db.outbox
  {}

  // ----- Workers -----

  /** Registration keeps what a known worker holds and how it was set, and is refused exactly when it
      would leave it with less room than it uses. */
  lemma RegistrationExactly(w: World, worker: WorkerId, capacity: nat, runtimesValid: bool, now: Time)
    ensures Register(w.db, worker, capacity, runtimesValid, now).1.Ok? <==>
      runtimesValid && (worker in w.db.workers ==> w.db.workers[worker].active <= capacity)
    ensures Register(w.db, worker, capacity, runtimesValid, now).1.Ok? ==>
      Register(w.db, worker, capacity, runtimesValid, now).0.workers == w.db.workers[worker :=
        if worker in w.db.workers then WorkerRow(w.db.workers[worker].mode, capacity, w.db.workers[worker].active, now)
        else WorkerRow(Online, capacity, 0, now)]
    ensures Register(w.db, worker, capacity, runtimesValid, now).1.Err? ==>
      Register(w.db, worker, capacity, runtimesValid, now).0 == w.db
  {}

  // ----- Outbox -----

  /** Leasing takes any unpublished row; marking and retrying are for the dispatcher that has it. */
  lemma OutboxExactly(w: World, key: OutboxKey, dispatcher: string)
    ensures LeaseOutbox(w.db, key, dispatcher).1.Ok? <==> key in w.db.outbox && !w.db.outbox[key].published
    ensures MarkPublished(w.db, key, dispatcher).1.Ok? <==>
      key in w.db.outbox && !w.db.outbox[key].published && w.db.outbox[key].lockedBy == Some(dispatcher)
    ensures RetryOutbox(w.db, key, dispatcher).1.Ok? <==> MarkPublished(w.db, key, dispatcher).1.Ok?
    ensures LeaseOutbox(w.db, key, dispatcher).1.Ok? ==>
      LeaseOutbox(w.db, key, dispatcher).0.outbox == w.db.outbox[key := OutboxRow(w.db.outbox[key].letter, Some(dispatcher), false)]
    ensures MarkPublished(w.db, key, dispatcher).1.Ok? ==>
      MarkPublished(w.db, key, dispatcher).0.outbox == w.db.outbox[key := OutboxRow(w.db.outbox[key].letter, None, true)]
    ensures RetryOutbox(w.db, key, dispatcher).1.Ok? ==>
      RetryOutbox(w.db, key, dispatcher).0.outbox == w.db.outbox[key := OutboxRow(w.db.outbox[key].letter, None, false)]
  {}

  /** A valid letter is in the outbox afterwards, and a row that was there is as it was. */
  lemma LettersAreKept(w: World, letter: DeadLetter)
    requires Validate(letter).None?
    ensures Identity(letter) in EnqueueLetter(w.db, letter).0.outbox
    ensures EnqueueLetter(w.db, letter).0.outbox ==
      if Identity(letter) in w.db.outbox then w.db.outbox
      else w.db.outbox[Identity(letter) := OutboxRow(Some(letter), None, false)]
  {}
}
