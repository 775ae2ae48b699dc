/** Runs of the database: any interleaving of the transactions, called as the system calls them. */
module Runs {
  import opened Base
  import opened Lifecycle
  import opened DeadLetters
  import opened Store

  /** A finalizing caller's earlier snapshot of a lease-free job. */
  datatype Sighting = Sighting(outcome: JobOutcome, attempts: nat)

  /** The database together with what its callers remember: every lease id generated so far and
      the job it was generated for, and the lease-free jobs a finalizer has looked at. */
  datatype World = World(db: Db, issued: map<LeaseId, JobId>, seen: map<JobId, Sighting>, maxAttempts: nat)

  datatype Step =
    | DoCreate(create: CreateRequest, id: JobId)
    | DoCancel(job: JobId)
    | DoClaim(claim: ClaimRequest)
    | DoMove(move: MoveRequest)
    | DoReport(result: JobResult, now: Time)
    | DoRecover(stale: StaleJob)
    | DoObserve(job: JobId)
    | DoFinalize(job: JobId, finish: bool)
    | DoRegister(worker: WorkerId, capacity: nat, runtimesValid: bool, now: Time)
    | DoSetMode(worker: WorkerId, mode: WorkerMode)
    | DoBeat(beat: Heartbeat)
    | DoEnqueue(letter: DeadLetter)
    | DoLease(key: OutboxKey, dispatcher: string)
    | DoPublished(key: OutboxKey, dispatcher: string)
    | DoRetry(key: OutboxKey, dispatcher: string)

  /** The unguarded transitions: begin cleanup, or finish it under the outcome that was seen. */
  function FinalizeRequest(job: JobId, outcome: JobOutcome, finish: bool): MoveRequest {
    if finish then
      MoveRequest(job, CleaningUp, TerminalState(outcome), Evidence(Some(outcome), true, true), None, 0)
    else
      MoveRequest(job, CollectingArtifacts, CleaningUp, Evidence(Some(outcome), true, false), None, 0)
  }

  predicate Finalizable(row: JobRow) {
    && row.lease.None? && !row.state.Terminal()
    && (row.pending == Some(JobOutcome.Cancelled) || row.pending == Some(JobOutcome.InfraFailed))
  }

  /** Exhaustion letters are enqueued by callers that found the marker row, or by the reconciler
      for a job it saw lease-free under InfraFailed. */
  predicate LetterIsJustified(w: World, letter: DeadLetter) {
    letter.reason.AttemptsExhausted? && letter.job.Some? ==>
      || ExhaustedKey(letter.job.value, letter.attempt) in w.db.outbox
      || (letter.job.value in w.seen && w.seen[letter.job.value].outcome.InfraFailed?
          && letter.attempt == Max(w.seen[letter.job.value].attempts, 1))
  }

  /** How the system calls each transaction: generated ids are fresh, worker requests always carry
      their lease, and unguarded transitions follow a lease-free snapshot. */
  predicate Enabled(w: World, step: Step) {
    match step
    case DoCreate(_, id) => id !in w.db.jobs
    case DoClaim(claim) => claim.lease !in w.issued
    case DoMove(move) => move.guard.Some?
    case DoFinalize(job, _) => job in w.seen
    case DoEnqueue(letter) => LetterIsJustified(w, letter)
    case _ => true
  }

  function DbAfter(w: World, step: Step): Db {
    match step
    case DoCreate(create, id) => Create(w.db, create, id).0
    case DoCancel(job) => Cancel(w.db, job).0
    case DoClaim(claim) => Claim(w.db, claim).0
    case DoMove(move) => Move(w.db, move).0
    case DoReport(result, now) => Report(w.db, result, now).0
    case DoRecover(stale) => Recover(w.db, stale, w.maxAttempts).0
    case DoObserve(_) => w.db
    case DoFinalize(job, finish) =>
      if job in w.seen then Move(w.db, FinalizeRequest(job, w.seen[job].outcome, finish)).0 else w.db
    case DoRegister(worker, capacity, runtimesValid, now) => Register(w.db, worker, capacity, runtimesValid, now).0
    case DoSetMode(worker, mode) => SetMode(w.db, worker, mode).0
    case DoBeat(beat) => Beat(w.db, beat).0
    case DoEnqueue(letter) => EnqueueLetter(w.db, letter).0
    case DoLease(key, dispatcher) => LeaseOutbox(w.db, key, dispatcher).0
    case DoPublished(key, dispatcher) => MarkPublished(w.db, key, dispatcher).0
    case DoRetry(key, dispatcher) => RetryOutbox(w.db, key, dispatcher).0
  }

  function SeenAfter(w: World, step: Step): map<JobId, Sighting> {
    match step
    case DoObserve(job) =>
      if job in w.db.jobs && Finalizable(w.db.jobs[job]) then
        w.seen[job := Sighting(w.db.jobs[job].pending.value, w.db.jobs[job].attempts)]
      else w.seen
    case _ => w.seen
  }

  function After(w: World, step: Step): World {
    World(DbAfter(w, step),
          if step.DoClaim? then w.issued[step.claim.lease := step.claim.job] else w.issued,
          SeenAfter(w, step),
          w.maxAttempts)
  }

  predicate EmptyWorld(w: World) {
    && w.maxAttempts > 0
    && w.db.jobs == map[] && w.db.keys == map[] && w.db.workers == map[]
    && w.db.outbox == map[] && w.db.events == []
    && w.issued == map[] && w.seen == map[]
  }

  ghost predicate Run(worlds: seq<World>, steps: seq<Step>) {
    && |worlds| == |steps| + 1
    && EmptyWorld(worlds[0])
    && forall i {:trigger steps[i]} :: 0 <= i < |steps| ==>
         Enabled(worlds[i], steps[i]) && worlds[i + 1] == After(worlds[i], steps[i])
  }

  // ----- What one step does to one row -----

  datatype Change =
    | Kept
    | ToCancelled
    | ToClaimed(claim: ClaimRequest)
    | ToMoved(move: MoveRequest)
    | ToReported(result: JobResult, at: Time)
    | ToRecovered(disposition: Disposition)
    | ToExtended(beat: Heartbeat, lease: LeaseId)

  function Changed(row: JobRow, change: Change): JobRow {
    match change
    case Kept => row
    case ToCancelled => CancelledRow(row)
    case ToClaimed(claim) => ClaimedRow(row, claim)
    case ToMoved(move) => MovedRow(row, move.to, move.evidence)
    case ToReported(result, _) => ReportedRow(row, result)
    case ToRecovered(disposition) => if disposition.LostRace? then row else RecoveredRow(row, disposition)
    case ToExtended(beat, _) => ExtendedRow(row, beat)
  }

  /** A job that no longer holds a lease and is not waiting for one. */
  predicate Settled(row: JobRow) {
    row.lease.None? && !row.state.Queued?
  }

  /** Under what circumstances a row of job `j` undergoes a change. */
  predicate Lawful(w: World, j: JobId, row: JobRow, change: Change) {
    match change
    case Kept => true
    case ToCancelled => !row.state.Terminal() && row.pending.None?
    case ToClaimed(claim) => claim.job == j && row.state.Queued? && claim.lease !in w.issued
    case ToMoved(move) =>
      && ValidateTransition(move.from, move.to, move.evidence).Allowed?
      && row.state == move.from
      && (move.evidence.pending.Some? && row.pending.Some? ==> row.pending == move.evidence.pending)
      && Checks(MovedRow(row, move.to, move.evidence))
      && (move.guard.Some? ==> GuardHolds(row, move.guard.value, move.now))
      && (move.guard.None? ==> Settled(row) && row.pending.Some? && row.pending == move.evidence.pending)
    case ToReported(result, at) =>
      && row.worker == Some(result.worker) && row.lease == Some(result.lease)
      && row.expires.Some? && row.expires.value > at
      && !row.state.Terminal() && (row.pending.Some? ==> row.pending == Some(result.outcome))
      && (result.cleanup ==> result.artifacts)
    case ToRecovered(disposition) =>
      && row.lease.Some? && !row.state.Terminal()
      && (disposition.Cancelling? <==> row.pending == Some(JobOutcome.Cancelled))
      && (disposition.Requeued? ==> row.attempts < w.maxAttempts)
      && (disposition.Finalizing? ==> row.attempts >= w.maxAttempts)
      && !disposition.LostRace?
    case ToExtended(beat, lease) =>
      && beat.ttl > 0
      && GuardHolds(row, Guard(beat.worker, lease), beat.now)
      && row.pending.None? && !row.state.Queued? && !row.state.Terminal()
  }

  /** A sighting stays true: the job is settled for good, with the outcome that was seen. */
  predicate SeenOk(w: World) {
    forall j :: j in w.seen ==>
      && j in w.db.jobs && Settled(w.db.jobs[j])
      && w.db.jobs[j].pending == Some(w.seen[j].outcome) && w.db.jobs[j].attempts == w.seen[j].attempts
      && (w.seen[j].outcome.Cancelled? || w.seen[j].outcome.InfraFailed?)
  }

  /** The extension that reaches job `j`, if any among the first `n` does. */
  function BeatChange(jobs: map<JobId, JobRow>, beat: Heartbeat, j: JobId, n: nat): (change: Change)
    requires n <= |beat.extensions|
    ensures change.Kept? || (change.ToExtended? && change.beat == beat)
  {
    if n == 0 then Kept
    else if beat.extensions[n - 1].job == j && Extendable(ExtendMany(jobs, beat, n - 1), beat, beat.extensions[n - 1]) then
      ToExtended(beat, beat.extensions[n - 1].lease)
    else BeatChange(jobs, beat, j, n - 1)
  }

  function ChangeOf(w: World, step: Step, j: JobId): Change {
    match step
    case DoCancel(job) => if job == j && CancelVerdict(w.db, job) == Ok(true) then ToCancelled else Kept
    case DoClaim(claim) => if claim.job == j && ClaimRefusal(w.db, claim).None? then ToClaimed(claim) else Kept
    case DoMove(move) => if move.job == j && MoveRefusal(w.db, move).None? then ToMoved(move) else Kept
    case DoFinalize(job, finish) =>
      if job == j && j in w.seen && MoveRefusal(w.db, FinalizeRequest(j, w.seen[j].outcome, finish)).None? then
        ToMoved(FinalizeRequest(j, w.seen[j].outcome, finish))
      else Kept
    case DoReport(result, now) =>
      if result.job == j && ReportRefusal(w.db, result, now).None? then ToReported(result, now) else Kept
    case DoRecover(stale) =>
      if stale.job == j && Recover(w.db, stale, w.maxAttempts).1.Ok? && !RecoverVerdict(w.db, stale, w.maxAttempts).LostRace?
      then ToRecovered(RecoverVerdict(w.db, stale, w.maxAttempts)) else Kept
    case DoBeat(beat) =>
      if HeartbeatRefusal(w.db, beat).None? then BeatChange(w.db.jobs, beat, j, |beat.extensions|) else Kept
    case _ => Kept
  }

  lemma {:induction false} BeatChanges(w: World, beat: Heartbeat, j: JobId, n: nat)
    requires n <= |beat.extensions| && j in w.db.jobs && beat.ttl > 0
    ensures ExtendMany(w.db.jobs, beat, n).Keys == w.db.jobs.Keys
    ensures var change := BeatChange(w.db.jobs, beat, j, n);
            && Lawful(w, j, w.db.jobs[j], change)
            && ExtendMany(w.db.jobs, beat, n)[j] == Changed(w.db.jobs[j], change)
  {
    if n > 0 {
      BeatChanges(w, beat, j, n - 1);
    }
  }

  lemma BeatKeepsKeys(w: World, beat: Heartbeat, n: nat)
    requires n <= |beat.extensions|
    ensures ExtendMany(w.db.jobs, beat, n).Keys == w.db.jobs.Keys
  {
    if n > 0 { BeatKeepsKeys(w, beat, n - 1); }
  }

  ghost predicate ChangesLawfully(w: World, step: Step, j: JobId)
    requires j in w.db.jobs
  {
    && j in After(w, step).db.jobs
    && Lawful(w, j, w.db.jobs[j], ChangeOf(w, step, j))
    && After(w, step).db.jobs[j] == Changed(w.db.jobs[j], ChangeOf(w, step, j))
  }

  lemma MoveChanges(w: World, step: Step, j: JobId)
    requires Enabled(w, step) && SeenOk(w) && j in w.db.jobs && (step.DoMove? || step.DoFinalize?)
    ensures ChangesLawfully(w, step, j)
  {
    if step.DoFinalize? && step.job == j {
      assert FinalizeRequest(j, w.seen[j].outcome, step.finish).evidence.pending == Some(w.seen[j].outcome);
    }
  }

  lemma RecoverChanges(w: World, step: Step, j: JobId)
    requires Enabled(w, step) && j in w.db.jobs && step.DoRecover?
    ensures ChangesLawfully(w, step, j)
  {}

  lemma RequestChanges(w: World, step: Step, j: JobId)
    requires Enabled(w, step) && j in w.db.jobs && (step.DoCreate? || step.DoCancel?)
    ensures ChangesLawfully(w, step, j)
  {}

  lemma ClaimChanges(w: World, step: Step, j: JobId)
    requires Enabled(w, step) && j in w.db.jobs && step.DoClaim?
    ensures ChangesLawfully(w, step, j)
  {}

  lemma ReportChanges(w: World, step: Step, j: JobId)
    requires Enabled(w, step) && j in w.db.jobs && step.DoReport?
    ensures ChangesLawfully(w, step, j)
  {}

  /** Every step treats every existing row lawfully. */
  lemma StepChanges(w: World, step: Step, j: JobId)
    requires Enabled(w, step) && SeenOk(w) && j in w.db.jobs
    ensures ChangesLawfully(w, step, j)
  {
    match step
    case DoMove(_) => MoveChanges(w, step, j);
    case DoFinalize(_, _) => MoveChanges(w, step, j);
    case DoRecover(_) => RecoverChanges(w, step, j);
    case DoCreate(_, _) => RequestChanges(w, step, j);
    case DoCancel(_) => RequestChanges(w, step, j);
    case DoClaim(_) => ClaimChanges(w, step, j);
    case DoReport(_, _) => ReportChanges(w, step, j);
    case DoBeat(beat) =>
      if HeartbeatRefusal(w.db, beat).None? { BeatChanges(w, beat, j, |beat.extensions|); }
    case _ =>
  }

  predicate Inserts(w: World, step: Step) {
    step.DoCreate? && Create(w.db, step.create, step.id).1 == Ok(Created(step.id, true))
      && (step.create.project, step.create.key) !in w.db.keys
  }

  /** Rows are never deleted, and only an accepted creation adds one. */
  lemma StepKeys(w: World, step: Step)
    requires Enabled(w, step)
    ensures !Inserts(w, step) ==> After(w, step).db.jobs.Keys == w.db.jobs.Keys
    ensures Inserts(w, step) ==> After(w, step).db.jobs == w.db.jobs[step.id := NewRow(step.create)]
  {
    if step.DoBeat? && HeartbeatRefusal(w.db, step.beat).None? {
      BeatKeepsKeys(w, step.beat, |step.beat.extensions|);
    }
  }
}
