/** The promises of the job-ownership protocol, over whole runs. */
module Guarantees {
  import opened Base
  import opened Lifecycle
  import opened DeadLetters
  import opened Store
  import opened Runs
  import opened Invariant

  // ----- Reservations and quotas -----

  /** A worker's counter is the number of jobs holding a lease on it, and never exceeds capacity. */
  lemma ReservationsAreConserved(worlds: seq<World>, steps: seq<Step>, i: nat, worker: WorkerId)
    requires Run(worlds, steps) && i <= |steps| && worker in worlds[i].db.workers
    ensures worlds[i].db.workers[worker].active == |Rows(worlds[i].db.jobs, IsHeldBy(worker))|
    ensures worlds[i].db.workers[worker].active <= worlds[i].db.workers[worker].capacity
  {
    RunsAreOk(worlds, steps, i);
  }

  /** Whenever a job loses its lease its worker's counter goes down by one, unclamped. */
  lemma ReservationsAreReturned(worlds: seq<World>, steps: seq<Step>, i: nat, j: JobId)
    requires Run(worlds, steps) && i < |steps| && j in worlds[i].db.jobs && j in worlds[i + 1].db.jobs
    requires worlds[i].db.jobs[j].lease.Some? && worlds[i + 1].db.jobs[j].lease.None?
    ensures worlds[i].db.jobs[j].worker.Some?
    ensures var worker := worlds[i].db.jobs[j].worker.value;
      worker in worlds[i].db.workers && worker in worlds[i + 1].db.workers
      && worlds[i + 1].db.workers[worker].active == worlds[i].db.workers[worker].active - 1
  {
    var change := ChangeInRun(worlds, steps, i, j);
    RunsAreOk(worlds, steps, i);
    LeaseEndReleases(worlds[i], steps[i], j);
  }

  lemma LeaseEndReleases(w: World, step: Step, j: JobId)
    requires LeasesOk(w) && WorkersOk(w.db) && j in w.db.jobs && w.db.jobs[j].lease.Some?
    requires ChangeOf(w, step, j).ToMoved? || ChangeOf(w, step, j).ToRecovered?
    requires Changed(w.db.jobs[j], ChangeOf(w, step, j)).lease.None?
    ensures w.db.jobs[j].worker.Some?
    ensures var worker := w.db.jobs[j].worker.value;
      worker in w.db.workers && worker in After(w, step).db.workers
      && After(w, step).db.workers[worker].active == w.db.workers[worker].active - 1
  {
    ReleaseIsExact(w, j);
    if ChangeOf(w, step, j).ToMoved? { MoveReleases(w, step, j); } else { RecoveryReleases(w, step, j); }
  }

  lemma MoveReleases(w: World, step: Step, j: JobId)
    requires j in w.db.jobs && w.db.jobs[j].lease.Some? && w.db.jobs[j].worker.Some? && ChangeOf(w, step, j).ToMoved?
    requires Changed(w.db.jobs[j], ChangeOf(w, step, j)).lease.None?
    ensures After(w, step).db.workers == ReleaseIfPresent(w.db.workers, w.db.jobs[j].worker.value)
  {}

  lemma RecoveryReleases(w: World, step: Step, j: JobId)
    requires j in w.db.jobs && w.db.jobs[j].worker.Some? && ChangeOf(w, step, j).ToRecovered?
    ensures After(w, step).db.workers == ReleaseIfPresent(w.db.workers, w.db.jobs[j].worker.value)
  {}

  lemma QuotasHold(worlds: seq<World>, steps: seq<Step>, i: nat, p: ProjectId)
    requires Run(worlds, steps) && i <= |steps| && p in worlds[i].db.projects
    ensures |Rows(worlds[i].db.jobs, IsRunning(p))| <= worlds[i].db.projects[p].maxConcurrent
    ensures |Rows(worlds[i].db.jobs, IsOutstanding(p))| <= worlds[i].db.projects[p].maxOutstanding
  {
    RunsAreOk(worlds, steps, i);
  }

  // ----- Idempotent creation -----

  lemma {:induction false} IndexIsPermanent(worlds: seq<World>, steps: seq<Step>, i: nat, k: nat, key: (ProjectId, string))
    requires Run(worlds, steps) && i <= k <= |steps| && key in worlds[i].db.keys
    ensures key in worlds[k].db.keys && worlds[k].db.keys[key] == worlds[i].db.keys[key]
    decreases k
  {
    if i < k {
      IndexIsPermanent(worlds, steps, i, k - 1, key);
      StepKeepsIndex(worlds[k - 1], steps[k - 1]);
    }
  }

  /** Once a project's key has created a job, every later request under it returns that job and
      changes nothing, whatever its body says and however full the project is.  The job has one
      queued event and one queue row. */
  lemma CreationIsIdempotent(worlds: seq<World>, steps: seq<Step>, i: nat, k: nat, request: CreateRequest, id: JobId)
    requires Run(worlds, steps) && i <= k <= |steps|
    requires (request.project, request.key) in worlds[i].db.keys && ValidIdempotencyKey(request.key)
    ensures var original := worlds[i].db.keys[(request.project, request.key)];
      && Create(worlds[k].db, request, id) == (worlds[k].db, Ok(Created(original, false)))
      && original in worlds[k].db.jobs && worlds[k].db.jobs[original].project == request.project
      && QueuedEvents(worlds[k].db.events, original) == 1
      && QueuedKey(original) in worlds[k].db.outbox
  {
    IndexIsPermanent(worlds, steps, i, k, (request.project, request.key));
    RunsAreOk(worlds, steps, k);
  }

  // ----- Fencing -----

  /** The lease on whose authority a worker's request changes a row. */
  function Authority(change: Change): Option<LeaseId> {
    match change
    case ToMoved(move) => if move.guard.Some? then Some(move.guard.value.lease) else None
    case ToReported(result, _) => Some(result.lease)
    case ToExtended(_, lease) => Some(lease)
    case _ => None
  }

  /** A lease once generated for a job and not held by it is never held by it again. */
  lemma {:induction false} EndedLeasesStayEnded(
    worlds: seq<World>, steps: seq<Step>, i: nat, k: nat, j: JobId, lease: LeaseId)
    requires Run(worlds, steps) && i <= k <= |steps|
    requires j in worlds[i].db.jobs && lease in worlds[i].issued && worlds[i].db.jobs[j].lease != Some(lease)
    ensures j in worlds[k].db.jobs && lease in worlds[k].issued && worlds[k].db.jobs[j].lease != Some(lease)
    decreases k
  {
    if i < k {
      EndedLeasesStayEnded(worlds, steps, i, k - 1, j, lease);
      RunsAreOk(worlds, steps, k - 1);
      LeaseOrigin(worlds[k - 1], steps[k - 1], j);
      StepKeepsIssued(worlds[k - 1], steps[k - 1]);
    }
  }

  /** Fencing: after a lease has ended, by recovery or by a terminal transition, no transition and
      no result that carries it changes anything, and no heartbeat extends the job by it, whatever
      has been claimed since. */
  lemma Fencing(worlds: seq<World>, steps: seq<Step>, i: nat, k: nat, j: JobId, lease: LeaseId)
    requires Run(worlds, steps) && i <= k < |steps|
    requires j in worlds[i].db.jobs && lease in worlds[i].issued && worlds[i].db.jobs[j].lease != Some(lease)
    ensures Authority(ChangeOf(worlds[k], steps[k], j)) != Some(lease)
    ensures steps[k].DoMove? && steps[k].move.job == j && steps[k].move.guard.value.lease == lease ==>
      worlds[k + 1].db == worlds[k].db
    ensures steps[k].DoReport? && steps[k].result.job == j && steps[k].result.lease == lease ==>
      worlds[k + 1].db == worlds[k].db
  {
    EndedLeasesStayEnded(worlds, steps, i, k, j, lease);
    var change := ChangeInRun(worlds, steps, k, j);
    StrangersAreRefused(worlds[k], steps[k], j, lease);
  }

  lemma StrangersAreRefused(w: World, step: Step, j: JobId, lease: LeaseId)
    requires j in w.db.jobs && w.db.jobs[j].lease != Some(lease) && Enabled(w, step)
    ensures step.DoMove? && step.move.job == j && step.move.guard.value.lease == lease ==> After(w, step).db == w.db
    ensures step.DoReport? && step.result.job == j && step.result.lease == lease ==> After(w, step).db == w.db
  {}

  /** No two jobs ever hold the same lease. */
  lemma LeasesAreExclusive(worlds: seq<World>, steps: seq<Step>, i: nat, a: JobId, b: JobId)
    requires Run(worlds, steps) && i <= |steps| && a in worlds[i].db.jobs && b in worlds[i].db.jobs
    requires worlds[i].db.jobs[a].lease.Some? && worlds[i].db.jobs[a].lease == worlds[i].db.jobs[b].lease
    ensures a == b
  {
    RunsAreOk(worlds, steps, i);
  }

  // ----- Attempts and exhaustion -----

  predicate ClaimsNow(w: World, step: Step, j: JobId) {
    step.DoClaim? && step.claim.job == j && Claim(w.db, step.claim).1.Ok?
  }

  /** Accepted claims of a job among the first `n` steps. */
  ghost function ClaimsOf(worlds: seq<World>, steps: seq<Step>, j: JobId, n: nat): nat
    requires n <= |steps| < |worlds|
  {
    if n == 0 then 0
    else ClaimsOf(worlds, steps, j, n - 1) + (if ClaimsNow(worlds[n - 1], steps[n - 1], j) then 1 else 0)
  }

  lemma AttemptsAfter(w: World, step: Step, j: JobId)
    requires SeenOk(w) && Enabled(w, step) && j in w.db.jobs
    ensures j in After(w, step).db.jobs
    ensures After(w, step).db.jobs[j].attempts == w.db.jobs[j].attempts + if ClaimsNow(w, step, j) then 1 else 0
  {
    StepChanges(w, step, j);
  }

  lemma AttemptsInRun(worlds: seq<World>, steps: seq<Step>, j: JobId, n: nat)
    requires Run(worlds, steps) && 0 < n <= |steps|
    ensures worlds[n].maxAttempts == worlds[n - 1].maxAttempts
    ensures j in worlds[n - 1].db.jobs ==> j in worlds[n].db.jobs
    ensures j in worlds[n - 1].db.jobs ==>
      worlds[n].db.jobs[j].attempts - worlds[n - 1].db.jobs[j].attempts ==
        if ClaimsNow(worlds[n - 1], steps[n - 1], j) then 1 else 0
    ensures j !in worlds[n - 1].db.jobs ==> !ClaimsNow(worlds[n - 1], steps[n - 1], j)
    ensures j !in worlds[n - 1].db.jobs && j in worlds[n].db.jobs ==> worlds[n].db.jobs[j].attempts == 0
  {
    RunsAreOk(worlds, steps, n - 1);
    assert Enabled(worlds[n - 1], steps[n - 1]) && worlds[n] == After(worlds[n - 1], steps[n - 1]);
    if j in worlds[n - 1].db.jobs {
      AttemptsAfter(worlds[n - 1], steps[n - 1], j);
    } else {
      NewJobsAreUnclaimed(worlds[n - 1], steps[n - 1], j);
    }
  }

  lemma NewJobsAreUnclaimed(w: World, step: Step, j: JobId)
    requires Enabled(w, step) && j !in w.db.jobs
    ensures !ClaimsNow(w, step, j) && (j in After(w, step).db.jobs ==> After(w, step).db.jobs[j].attempts == 0)
  {
    StepKeys(w, step);
  }

  lemma {:induction false} AttemptsCountClaims(worlds: seq<World>, steps: seq<Step>, j: JobId, n: nat)
    requires Run(worlds, steps) && n <= |steps|
    ensures ClaimsOf(worlds, steps, j, n) == if j in worlds[n].db.jobs then worlds[n].db.jobs[j].attempts else 0
    ensures worlds[0].maxAttempts == worlds[n].maxAttempts
  {
    if n > 0 {
      AttemptsCountClaims(worlds, steps, j, n - 1);
      AttemptsInRun(worlds, steps, j, n);
    }
  }

  /** The attempt counter counts the claims, so no job is claimed more than maxAttempts times. */
  lemma AttemptsAreBounded(worlds: seq<World>, steps: seq<Step>, j: JobId, n: nat)
    requires Run(worlds, steps) && n <= |steps|
    ensures ClaimsOf(worlds, steps, j, n) == if j in worlds[n].db.jobs then worlds[n].db.jobs[j].attempts else 0
    ensures ClaimsOf(worlds, steps, j, n) <= worlds[0].maxAttempts == worlds[n].maxAttempts
  {
    AttemptsCountClaims(worlds, steps, j, n);
    if j in worlds[n].db.jobs { RowInRun(worlds, steps, n, j); }
  }

  /** Exhaustions of a job among the first `n` steps. */
  ghost function ExhaustionsOf(worlds: seq<World>, steps: seq<Step>, j: JobId, n: nat): nat
    requires n <= |steps| < |worlds|
  {
    if n == 0 then 0
    else ExhaustionsOf(worlds, steps, j, n - 1) + (if ExhaustsNow(worlds[n - 1], steps[n - 1], j) then 1 else 0)
  }

  lemma ExhaustionNeedsLease(w: World, step: Step, j: JobId)
    requires WorldOk(w) && ExhaustsNow(w, step, j)
    ensures j in w.db.jobs && w.db.jobs[j].lease.Some? && w.db.jobs[j].attempts == w.maxAttempts
  {
    RecoveryAddsMarker(w, step, j);
  }

  /** Exhaustion rows carry the permitted maximum, so a job has at most one. */
  lemma MarkersCarryMaximum(worlds: seq<World>, steps: seq<Step>, j: JobId, n: nat)
    requires Run(worlds, steps) && n <= |steps|
    ensures forall a :: ExhaustedKey(j, a) in worlds[n].db.outbox ==> a == worlds[n].maxAttempts
    ensures n == 0 ==> ExhaustedKey(j, worlds[n].maxAttempts) !in worlds[n].db.outbox
  {
    RunsAreOk(worlds, steps, n);
  }

  lemma LeasedIsUnmarked(w: World, j: JobId)
    requires OutboxOk(w) && j in w.db.jobs && w.db.jobs[j].lease.Some?
    ensures ExhaustedKey(j, w.maxAttempts) !in w.db.outbox
  {
    assert !Exhausted(w, j);
  }

  /** A step exhausts a job exactly when it adds the job's exhaustion row. */
  lemma MarkersFollowExhaustion(w: World, step: Step, j: JobId)
    requires WorldOk(w) && Enabled(w, step)
    ensures ExhaustsNow(w, step, j) ==> ExhaustedKey(j, w.maxAttempts) !in w.db.outbox
    ensures ExhaustedKey(j, w.maxAttempts) in After(w, step).db.outbox <==>
      ExhaustedKey(j, w.maxAttempts) in w.db.outbox || ExhaustsNow(w, step, j)
  {
    StepGrowsOutbox(w, step);
    if ExhaustsNow(w, step, j) {
      ExhaustionNeedsLease(w, step, j);
      RecoveryAddsMarker(w, step, j);
      LeasedIsUnmarked(w, j);
    } else if ExhaustedKey(j, w.maxAttempts) in After(w, step).db.outbox && ExhaustedKey(j, w.maxAttempts) !in w.db.outbox {
      MarkerOrigin(w, step, j, w.maxAttempts);
    }
  }

  /** The number of exhaustion rows of a job. */
  function Markers(w: World, j: JobId): nat {
    if ExhaustedKey(j, w.maxAttempts) in w.db.outbox then 1 else 0
  }

  lemma MarkersCount(w: World, step: Step, j: JobId)
    requires WorldOk(w) && Enabled(w, step)
    ensures Markers(After(w, step), j) == Markers(w, j) + if ExhaustsNow(w, step, j) then 1 else 0
  {
    MarkersFollowExhaustion(w, step, j);
  }

  lemma MarkersInRun(worlds: seq<World>, steps: seq<Step>, j: JobId, n: nat)
    requires Run(worlds, steps) && n < |steps|
    ensures Markers(worlds[n + 1], j) == Markers(worlds[n], j) + if ExhaustsNow(worlds[n], steps[n], j) then 1 else 0
  {
    RunsAreOk(worlds, steps, n);
    assert Enabled(worlds[n], steps[n]) && worlds[n + 1] == After(worlds[n], steps[n]);
    MarkersCount(worlds[n], steps[n], j);
  }

  /** A job is exhausted at most once, at exactly the last permitted attempt; and it has been
      exhausted exactly when its one AttemptsExhausted row exists. */
  lemma {:induction false} ExhaustionIsSingle(worlds: seq<World>, steps: seq<Step>, j: JobId, n: nat)
    requires Run(worlds, steps) && n <= |steps|
    ensures ExhaustionsOf(worlds, steps, j, n) == Markers(worlds[n], j) <= 1
  {
    if n == 0 {
      MarkersCarryMaximum(worlds, steps, j, 0);
    } else {
      ExhaustionIsSingle(worlds, steps, j, n - 1);
      MarkersInRun(worlds, steps, j, n - 1);
    }
  }

  lemma LetterChangesNothing(w: World, letter: DeadLetter)
    requires SeenOk(w) && RowsOk(w) && OutboxOk(w) && w.maxAttempts > 0
    requires letter.reason.AttemptsExhausted? && LetterIsJustified(w, letter)
    ensures EnqueueLetter(w.db, letter).0 == w.db
  {
    if Validate(letter).None? { LettersReplay(w, letter); }
  }

  /** The dead letter that a finalizer enqueues later, and any other exhaustion letter, is a replay. */
  lemma ExhaustionLettersReplay(worlds: seq<World>, steps: seq<Step>, i: nat)
    requires Run(worlds, steps) && i < |steps| && steps[i].DoEnqueue? && steps[i].letter.reason.AttemptsExhausted?
    ensures worlds[i + 1].db == worlds[i].db
  {
    RunsAreOk(worlds, steps, i);
    assert Enabled(worlds[i], steps[i]) && worlds[i + 1] == After(worlds[i], steps[i]);
    LetterChangesNothing(worlds[i], steps[i].letter);
  }

  /** Whoever looks up the marker of an exhausted job finds one that matches. */
  lemma MarkersAlwaysMatch(worlds: seq<World>, steps: seq<Step>, i: nat, j: JobId, attempt: nat)
    requires Run(worlds, steps) && i <= |steps| && ExhaustedKey(j, attempt) in worlds[i].db.outbox
    ensures MarkerMatches(worlds[i].db.outbox[ExhaustedKey(j, attempt)], j, attempt)
    ensures j in worlds[i].db.jobs && Settled(worlds[i].db.jobs[j])
  {
    RunsAreOk(worlds, steps, i);
    assert Exhausted(worlds[i], j);
  }

  // ----- The lifecycle, as the updates keep it -----

  function EvidenceIn(row: JobRow): Evidence {
    Evidence(row.pending, row.artifacts, row.cleanup)
  }

  /** Apart from recovery sending a job back to the queue, every state change in a run is one that
      the lifecycle contract allows on the evidence then in the row. */
  lemma StateChangesAreContractEdges(worlds: seq<World>, steps: seq<Step>, i: nat, j: JobId)
    requires Run(worlds, steps) && i < |steps| && j in worlds[i].db.jobs
    ensures j in worlds[i + 1].db.jobs
    ensures var row, row' := worlds[i].db.jobs[j], worlds[i + 1].db.jobs[j];
      || row.state == row'.state
      || ValidateTransition(row.state, row'.state, EvidenceIn(row')).Allowed?
      || (row'.state.Queued? && row.lease.Some? && ChangeOf(worlds[i], steps[i], j) == ToRecovered(Requeued))
  {
    var change := ChangeInRun(worlds, steps, i, j);
    if change != ToRecovered(Requeued) { ChangesAreEdges(worlds[i], j, worlds[i].db.jobs[j], change); }
  }

  lemma ChangesAreEdges(w: World, j: JobId, row: JobRow, change: Change)
    requires RowOk(row, w.maxAttempts) && Lawful(w, j, row, change) && change != ToRecovered(Requeued)
    ensures row.state == Changed(row, change).state
      || ValidateTransition(row.state, Changed(row, change).state, EvidenceIn(Changed(row, change))).Allowed?
  {}

  /** Cancellation never moves a job backwards: it is accepted only where the contract allows the
      edge into artifact collection. */
  lemma CancellationIsAnEdge(worlds: seq<World>, steps: seq<Step>, i: nat, j: JobId)
    requires Run(worlds, steps) && i <= |steps| && j in worlds[i].db.jobs
    ensures var row := worlds[i].db.jobs[j];
      CancelVerdict(worlds[i].db, j) == Ok(true) <==>
        row.pending.None?
        && ValidateTransition(row.state, CollectingArtifacts, Evidence(Some(JobOutcome.Cancelled), false, false)).Allowed?
  {
    RowInRun(worlds, steps, i, j);
  }

  /** What the late states and the terminal states always have. */
  lemma LateRowsAreComplete(worlds: seq<World>, steps: seq<Step>, i: nat, j: JobId)
    requires Run(worlds, steps) && i <= |steps| && j in worlds[i].db.jobs
    ensures var row := worlds[i].db.jobs[j];
      && (row.state.DebugAvailable? || row.state.CollectingArtifacts? || row.state.CleaningUp? ==> row.pending.Some?)
      && (row.state.CleaningUp? ==> row.artifacts)
      && (row.state.Terminal() ==>
            row.outcome == row.pending == row.state.TerminalOutcome() && row.artifacts && row.cleanup && row.lease.None?)
  {
    RowInRun(worlds, steps, i, j);
  }

  /** In reachable states a row constraint of the model rejects exactly the transitions whose evidence claims
      cleanup for a job whose artifacts are not finalized, and no other transaction. */
  lemma ChecksCatchOnlyCleanup(worlds: seq<World>, steps: seq<Step>, i: nat, move: MoveRequest)
    requires Run(worlds, steps) && i <= |steps|
    requires move.job in worlds[i].db.jobs && worlds[i].db.jobs[move.job].state == move.from
    requires ValidateTransition(move.from, move.to, move.evidence).Allowed?
    requires move.evidence.pending.None? || worlds[i].db.jobs[move.job].pending.None?
      || move.evidence.pending == worlds[i].db.jobs[move.job].pending
    requires move.guard.Some? && GuardHolds(worlds[i].db.jobs[move.job], move.guard.value, move.now)
    ensures MoveRefusal(worlds[i].db, move) == Some(CheckViolation) <==>
      move.evidence.cleanup && !move.evidence.artifacts && !worlds[i].db.jobs[move.job].artifacts
    ensures MoveRefusal(worlds[i].db, move).None? || MoveRefusal(worlds[i].db, move) == Some(CheckViolation)
  {
    RowInRun(worlds, steps, i, move.job);
  }

  lemma FinalizingPassesChecks(worlds: seq<World>, steps: seq<Step>, i: nat, job: JobId, finish: bool)
    requires Run(worlds, steps) && i <= |steps| && job in worlds[i].seen
    ensures MoveRefusal(worlds[i].db, FinalizeRequest(job, worlds[i].seen[job].outcome, finish)) != Some(CheckViolation)
  {
    SightingInRun(worlds, steps, i, job);
    RowInRun(worlds, steps, i, job);
    FinalizedRowPasses(worlds[i].db.jobs[job], worlds[i].maxAttempts, worlds[i].seen[job].outcome, finish);
  }

  lemma SightingInRun(worlds: seq<World>, steps: seq<Step>, i: nat, job: JobId)
    requires Run(worlds, steps) && i <= |steps| && job in worlds[i].seen
    ensures job in worlds[i].db.jobs && Settled(worlds[i].db.jobs[job])
    ensures worlds[i].db.jobs[job].pending == Some(worlds[i].seen[job].outcome)
  {
    RunsAreOk(worlds, steps, i);
  }

  /** The row that an unguarded transition of a settled job writes. */
  lemma FinalizedRowPasses(row: JobRow, maxAttempts: nat, outcome: JobOutcome, finish: bool)
    requires RowOk(row, maxAttempts) && Settled(row) && row.pending == Some(outcome)
    ensures var move := FinalizeRequest("", outcome, finish);
      row.state == move.from ==> Checks(MovedRow(row, move.to, move.evidence))
  {}

  lemma OtherTransactionsPassChecks(worlds: seq<World>, steps: seq<Step>, i: nat, step: Step)
    requires Run(worlds, steps) && i <= |steps|
    ensures step.DoCancel? ==> Cancel(worlds[i].db, step.job).1 != Err(CheckViolation)
    ensures step.DoClaim? ==> Claim(worlds[i].db, step.claim).1 != Err(CheckViolation)
    ensures step.DoReport? ==> Report(worlds[i].db, step.result, step.now).1 != Err(CheckViolation)
    ensures step.DoRecover? ==> Recover(worlds[i].db, step.stale, worlds[i].maxAttempts).1 != Err(CheckViolation)
    ensures step.DoFinalize? && step.job in worlds[i].seen ==>
      Move(worlds[i].db, FinalizeRequest(step.job, worlds[i].seen[step.job].outcome, step.finish)).1 != Err(CheckViolation)
  {
    match step
    case DoCancel(job) => if job in worlds[i].db.jobs { RowInRun(worlds, steps, i, job); }
    case DoClaim(claim) => if claim.job in worlds[i].db.jobs { RowInRun(worlds, steps, i, claim.job); }
    case DoReport(result, _) => if result.job in worlds[i].db.jobs { RowInRun(worlds, steps, i, result.job); }
    case DoRecover(stale) => if stale.job in worlds[i].db.jobs { RowInRun(worlds, steps, i, stale.job); }
    case DoFinalize(job, finish) => if job in worlds[i].seen { FinalizingPassesChecks(worlds, steps, i, job, finish); }
    case _ =>
  }

  /** The event log tells each job's state. */
  lemma EventLogAgrees(worlds: seq<World>, steps: seq<Step>, i: nat, j: JobId)
    requires Run(worlds, steps) && i <= |steps| && j in worlds[i].db.jobs
    ensures LastState(worlds[i].db.events, j) == Some(worlds[i].db.jobs[j].state)
  {
    RunsAreOk(worlds, steps, i);
  }

  // ----- What never happens again -----

  lemma {:induction false} TerminalIsFinal(worlds: seq<World>, steps: seq<Step>, i: nat, k: nat, j: JobId)
    requires Run(worlds, steps) && i <= k <= |steps| && j in worlds[i].db.jobs && worlds[i].db.jobs[j].state.Terminal()
    ensures j in worlds[k].db.jobs && worlds[k].db.jobs[j] == worlds[i].db.jobs[j]
    decreases k
  {
    if i < k {
      TerminalIsFinal(worlds, steps, i, k - 1, j);
      var change := ChangeInRun(worlds, steps, k - 1, j);
      TerminalRowsAreFrozen(worlds[k - 1], j, worlds[k - 1].db.jobs[j], change);
    }
  }

  lemma {:induction false} SettledStaysSettled(worlds: seq<World>, steps: seq<Step>, i: nat, k: nat, j: JobId)
    requires Run(worlds, steps) && i <= k <= |steps| && j in worlds[i].db.jobs && Settled(worlds[i].db.jobs[j])
    ensures j in worlds[k].db.jobs && Settled(worlds[k].db.jobs[j])
    ensures worlds[k].db.jobs[j].pending == worlds[i].db.jobs[j].pending
    decreases k
  {
    if i < k {
      SettledStaysSettled(worlds, steps, i, k - 1, j);
      var change := ChangeInRun(worlds, steps, k - 1, j);
      SettledForGood(worlds[k - 1], j, worlds[k - 1].db.jobs[j], change);
    }
  }

  lemma CancelledStaysCancelled(w: World, j: JobId, row: JobRow, change: Change)
    requires RowOk(row, w.maxAttempts) && Lawful(w, j, row, change) && row.pending == Some(JobOutcome.Cancelled)
    ensures Changed(row, change).pending == Some(JobOutcome.Cancelled)
    ensures !change.ToClaimed? && !change.ToExtended? && change != ToRecovered(Requeued)
    ensures Changed(row, change).expires.None? || Changed(row, change).expires == row.expires
  {}

  /** Cancellation is sticky: from then on nothing replaces or clears it, the job is not queued, its
      lease is not extended, it is not claimed, and the only terminal state it can be in is Cancelled. */
  lemma {:induction false} CancellationIsSticky(worlds: seq<World>, steps: seq<Step>, i: nat, k: nat, j: JobId)
    requires Run(worlds, steps) && i <= k <= |steps|
    requires j in worlds[i].db.jobs && worlds[i].db.jobs[j].pending == Some(JobOutcome.Cancelled)
    ensures j in worlds[k].db.jobs
    ensures var row := worlds[k].db.jobs[j];
      && row.pending == Some(JobOutcome.Cancelled)
      && !row.state.Queued?
      && (row.state.Terminal() ==> row.state == JobState.Cancelled)
      && (row.expires.None? || row.expires == worlds[i].db.jobs[j].expires)
    ensures k < |steps| ==> !ClaimsNow(worlds[k], steps[k], j)
    decreases k
  {
    if i < k {
      CancellationIsSticky(worlds, steps, i, k - 1, j);
      var change := ChangeInRun(worlds, steps, k - 1, j);
      CancelledStaysCancelled(worlds[k - 1], j, worlds[k - 1].db.jobs[j], change);
    }
    RowInRun(worlds, steps, k, j);
  }

  // ----- What owners can rely on -----

  /** Whoever wins a claim can proceed under it until it expires. */
  lemma ClaimantCanProceed(worlds: seq<World>, steps: seq<Step>, i: nat, now: Time)
    requires Run(worlds, steps) && i < |steps| && steps[i].DoClaim? && Claim(worlds[i].db, steps[i].claim).1.Ok?
    requires now < steps[i].claim.expires
    ensures var claim := steps[i].claim;
      MoveRefusal(worlds[i + 1].db,
                  MoveRequest(claim.job, Claimed, ProvisioningRuntime, Evidence(None, false, false),
                              Some(Guard(claim.worker, claim.lease)), now)).None?
  {
    assert Enabled(worlds[i], steps[i]) && worlds[i + 1] == After(worlds[i], steps[i]);
    RowInRun(worlds, steps, i + 1, steps[i].claim.job);
  }

  /** A lease reported as extended is live for the whole period it was extended by. */
  lemma {:induction false} ExtensionsHold(jobs: map<JobId, JobRow>, beat: Heartbeat, n: nat, x: Extension, t: Time)
    requires n <= |beat.extensions| && x in ReceiptFor(jobs, beat, n).extended && t < beat.now + beat.ttl
    ensures x.job in ExtendMany(jobs, beat, n)
    ensures GuardHolds(ExtendMany(jobs, beat, n)[x.job], Guard(beat.worker, x.lease), t)
  {
    if x in ReceiptFor(jobs, beat, n - 1).extended { ExtensionsHold(jobs, beat, n - 1, x, t); }
  }

  /** A requeued job is as it was created, but for its attempts. */
  lemma RequeueRestoresNewRow(row: JobRow)
    ensures RequeuedRow(row) == NewRow(CreateRequest(row.project, row.key, row.spec, true)).(attempts := row.attempts)
  {}

  lemma OutcomeSurvives(w: World, j: JobId, row: JobRow, change: Change)
    requires RowOk(row, w.maxAttempts) && Lawful(w, j, row, change) && row.pending.Some? && !change.ToRecovered?
    ensures Changed(row, change).pending == row.pending
  {}

  /** An accepted result decides the outcome: unless recovery takes the job away, nothing replaces
      it and the job can only end in its terminal state. */
  lemma {:induction false} ResultSticks(worlds: seq<World>, steps: seq<Step>, i: nat, k: nat)
    requires Run(worlds, steps) && i < k <= |steps| && steps[i].DoReport?
    requires Report(worlds[i].db, steps[i].result, steps[i].now).1.Ok?
    requires forall m {:trigger steps[m]} :: i < m < k ==> !ChangeOf(worlds[m], steps[m], steps[i].result.job).ToRecovered?
    ensures steps[i].result.job in worlds[k].db.jobs
    ensures var row := worlds[k].db.jobs[steps[i].result.job];
      && row.pending == Some(steps[i].result.outcome)
      && (row.state.Terminal() ==> row.state == TerminalState(steps[i].result.outcome))
    decreases k
  {
    var j := steps[i].result.job;
    assert Enabled(worlds[k - 1], steps[k - 1]) && worlds[k] == After(worlds[k - 1], steps[k - 1]);
    if i < k - 1 {
      ResultSticks(worlds, steps, i, k - 1);
      var change := ChangeInRun(worlds, steps, k - 1, j);
      OutcomeSurvives(worlds[k - 1], j, worlds[k - 1].db.jobs[j], change);
    }
    RowInRun(worlds, steps, k, j);
  }
}
