/** The PostgreSQL rows behind the scheduler and the transactions that change them.  Each
    transaction is one atomic function of the database; whatever it does not mention is kept. */
module Store {
  import opened Base
  import opened Lifecycle
  import opened DeadLetters

  // ----- Rows -----

  datatype JobRow = JobRow(
    project: ProjectId,
    key: string,
    spec: string,
    state: JobState,
    pending: Option<JobOutcome>,
    outcome: Option<JobOutcome>,
    artifacts: bool,
    cleanup: bool,
    worker: Option<WorkerId>,
    lease: Option<LeaseId>,
    expires: Option<Time>,
    attempts: nat)

  datatype WorkerMode = Online | Draining | Offline

  datatype WorkerRow = WorkerRow(mode: WorkerMode, capacity: nat, active: nat, heartbeatAt: Time)

  datatype Quota = Quota(maxConcurrent: nat, maxOutstanding: nat)

  datatype OutboxRow = OutboxRow(letter: Option<DeadLetter>, lockedBy: Option<string>, published: bool)

  datatype EventKind =
    | EventQueued | EventCancellationRequested | EventClaimed | EventMoved | EventResultRecorded
    | EventRequeued | EventRecoveryCancelled | EventRecoveryExhausted

  datatype JobEvent = JobEvent(job: JobId, kind: EventKind, state: JobState)

  /** `keys` is the unique index over (project_id, idempotency_key). */
  datatype Db = Db(
    projects: map<ProjectId, Quota>,
    jobs: map<JobId, JobRow>,
    keys: map<(ProjectId, string), JobId>,
    workers: map<WorkerId, WorkerRow>,
    outbox: map<OutboxKey, OutboxRow>,
    events: seq<JobEvent>)

  datatype RepoError =
    | Validation | NotFound | Conflict | QuotaExceeded | CasLost | CheckViolation
    | BadTransition(cause: TransitionError)

  /** The CHECK constraints on a job row, but for those that order its times. */
  predicate Checks(row: JobRow) {
    && (row.lease.None? <==> row.expires.None?)
    && (row.lease.Some? ==> row.worker.Some?)
    && (row.state.Queued? ==> row.worker.None? && row.lease.None?)
    && (row.cleanup ==> row.artifacts)
    && (row.state.Terminal() ==> row.pending == row.outcome == row.state.TerminalOutcome())
    && (!row.state.Terminal() ==> row.outcome.None?)
    && (row.state.Terminal() ==> row.artifacts && row.cleanup)
  }

  /** The ids of the rows that satisfy a condition. */
  function Rows(jobs: map<JobId, JobRow>, condition: JobRow -> bool): set<JobId> {
    set j | j in jobs && condition(jobs[j])
  }

  function IsOutstanding(project: ProjectId): JobRow -> bool {
    (row: JobRow) => row.project == project && !row.state.Terminal()
  }

  function IsRunning(project: ProjectId): JobRow -> bool {
    (row: JobRow) => row.project == project && row.lease.Some? && !row.state.Terminal()
  }

  function IsHeldBy(worker: WorkerId): JobRow -> bool {
    (row: JobRow) => row.lease.Some? && row.worker == Some(worker)
  }

  // ----- Creating a job -----

  /** `admissible` stands for the upload and runtime-profile checks. */
  datatype CreateRequest = CreateRequest(
    project: ProjectId, key: string, spec: string, admissible: bool)

  datatype Created = Created(job: JobId, wasCreated: bool)

  predicate ValidIdempotencyKey(key: string) {
    1 <= |key| <= 255 && forall i :: 0 <= i < |key| ==> '!' <= key[i] <= '~'
  }

  function NewRow(request: CreateRequest): JobRow {
    JobRow(request.project, request.key, request.spec, Queued, None, None, false, false, None, None, None, 0)
  }

  /** Why a request that is not a replay is refused. */
  function CreateRefusal(db: Db, request: CreateRequest): Option<RepoError> {
    if request.project !in db.projects then Some(NotFound)
    else if |Rows(db.jobs, IsOutstanding(request.project))| >= db.projects[request.project].maxOutstanding then
      Some(QuotaExceeded)
    else if !request.admissible then Some(Validation)
    else None
  }

  function Create(db: Db, request: CreateRequest, id: JobId): (Db, Result<Created, RepoError>) {
    if !ValidIdempotencyKey(request.key) then (db, Err(Validation))
    else if (request.project, request.key) in db.keys then
      (db, Ok(Created(db.keys[(request.project, request.key)], false)))
    else
      match CreateRefusal(db, request)
      case Some(error) => (db, Err(error))
      case None =>
        if QueuedKey(id) in db.outbox then (db, Err(Conflict))
        else (db.(jobs := db.jobs[id := NewRow(request)],
                  keys := db.keys[(request.project, request.key) := id],
                  outbox := db.outbox[QueuedKey(id) := OutboxRow(None, None, false)],
                  events := db.events + [JobEvent(id, EventQueued, Queued)]),
              Ok(Created(id, true)))
  }

  // ----- Cancelling -----

  function CancelledRow(row: JobRow): JobRow {
    row.(state := CollectingArtifacts, pending := Some(JobOutcome.Cancelled))
  }

  /** Ok(false) is the idempotent repeat of an earlier request. */
  function CancelVerdict(db: Db, job: JobId): Result<bool, RepoError> {
    if job !in db.jobs then Err(NotFound)
    else if db.jobs[job].state.Terminal() then Err(Conflict)
    else
      match db.jobs[job].pending
      case Some(outcome) => if outcome.Cancelled? then Ok(false) else Err(Conflict)
      case None => if Checks(CancelledRow(db.jobs[job])) then Ok(true) else Err(CheckViolation)
  }

  function Cancel(db: Db, job: JobId): (Db, Result<bool, RepoError>) {
    var verdict := CancelVerdict(db, job);
    if verdict == Ok(true) then
      (db.(jobs := db.jobs[job := CancelledRow(db.jobs[job])],
           events := db.events + [JobEvent(job, EventCancellationRequested, CollectingArtifacts)]),
       verdict)
    else (db, verdict)
  }

  // ----- Claiming -----

  /** `compatible` stands for the runtime, architecture, KVM and isolation match. */
  datatype ClaimRequest = ClaimRequest(
    job: JobId, worker: WorkerId, lease: LeaseId, expires: Time, now: Time, staleAfter: int, compatible: bool)

  function ClaimedRow(row: JobRow, request: ClaimRequest): JobRow {
    row.(state := Claimed, worker := Some(request.worker), lease := Some(request.lease),
         expires := Some(request.expires), attempts := row.attempts + 1)
  }

  function WorkerRefusal(worker: WorkerRow, request: ClaimRequest): Option<RepoError> {
    if !worker.mode.Online? then Some(Conflict)
    else if worker.active >= worker.capacity then Some(Conflict)
    else if worker.heartbeatAt < request.now - request.staleAfter then Some(Conflict)
    else if !request.compatible then Some(Conflict)
    else None
  }

  function ClaimRefusal(db: Db, request: ClaimRequest): Option<RepoError> {
    if request.staleAfter <= 0 then Some(Validation)
    else if request.job !in db.jobs then Some(NotFound)
    else
      var row := db.jobs[request.job];
      if !row.state.Queued? || row.lease.Some? || row.worker.Some? then Some(CasLost)
      else if row.project !in db.projects then Some(NotFound)
      else if |Rows(db.jobs, IsRunning(row.project))| >= db.projects[row.project].maxConcurrent then
        Some(QuotaExceeded)
      else if request.worker !in db.workers then Some(NotFound)
      else if request.expires <= request.now then Some(Validation)
      else if WorkerRefusal(db.workers[request.worker], request).Some? then
        WorkerRefusal(db.workers[request.worker], request)
      else if !Checks(ClaimedRow(row, request)) then Some(CheckViolation)
      else None
  }

  function Reserve(worker: WorkerRow): WorkerRow {
    worker.(active := worker.active + 1)
  }

  function Claim(db: Db, request: ClaimRequest): (Db, Result<JobRow, RepoError>) {
    match ClaimRefusal(db, request)
    case Some(error) => (db, Err(error))
    case None =>
      var row := ClaimedRow(db.jobs[request.job], request);
      (db.(jobs := db.jobs[request.job := row],
           workers := db.workers[request.worker := Reserve(db.workers[request.worker])],
           events := db.events + [JobEvent(request.job, EventClaimed, Claimed)]),
       Ok(row))
  }

  // ----- Lifecycle transitions -----

  datatype Guard = Guard(worker: WorkerId, lease: LeaseId)

  datatype MoveRequest = MoveRequest(
    job: JobId, from: JobState, to: JobState, evidence: Evidence, guard: Option<Guard>, now: Time)

  function MovedRow(row: JobRow, to: JobState, evidence: Evidence): JobRow {
    row.(state := to,
         pending := if evidence.pending.Some? then evidence.pending else row.pending,
         outcome := to.TerminalOutcome(),
         artifacts := row.artifacts || evidence.artifacts,
         cleanup := row.cleanup || evidence.cleanup,
         lease := if to.Terminal() then None else row.lease,
         expires := if to.Terminal() then None else row.expires)
  }

  predicate GuardHolds(row: JobRow, guard: Guard, now: Time) {
    && row.worker == Some(guard.worker)
    && row.lease == Some(guard.lease)
    && row.expires.Some? && row.expires.value > now
  }

  function MoveRefusal(db: Db, request: MoveRequest): Option<RepoError> {
    match ValidateTransition(request.from, request.to, request.evidence)
    case Refused(cause) => Some(BadTransition(cause))
    case Allowed =>
      if request.job !in db.jobs then Some(CasLost)
      else
        var row := db.jobs[request.job];
        if row.state != request.from then Some(CasLost)
        else if request.evidence.pending.Some? && row.pending.Some? && row.pending != request.evidence.pending then
          Some(CasLost)
        else if request.guard.Some? && !GuardHolds(row, request.guard.value, request.now) then Some(CasLost)
        else if !Checks(MovedRow(row, request.to, request.evidence)) then Some(CheckViolation)
        else None
  }

  /** `GREATEST(active_jobs - 1, 0)`. */
  function Release(worker: WorkerRow): WorkerRow {
    worker.(active := if worker.active == 0 then 0 else worker.active - 1)
  }

  function ReleaseIfPresent(workers: map<WorkerId, WorkerRow>, worker: WorkerId): map<WorkerId, WorkerRow> {
    if worker in workers then workers[worker := Release(workers[worker])] else workers
  }

  function Move(db: Db, request: MoveRequest): (Db, Result<JobRow, RepoError>) {
    match MoveRefusal(db, request)
    case Some(error) => (db, Err(error))
    case None =>
      var row := MovedRow(db.jobs[request.job], request.to, request.evidence);
      (db.(jobs := db.jobs[request.job := row],
           workers := if request.to.Terminal() && row.worker.Some? then ReleaseIfPresent(db.workers, row.worker.value)
                      else db.workers,
           events := db.events + [JobEvent(request.job, EventMoved, request.to)]),
       Ok(row))
  }

  // ----- Recording a result -----

  /** `artifactsKnown` stands for the check that every artifact id belongs to the job. */
  datatype JobResult = JobResult(
    job: JobId, worker: WorkerId, lease: LeaseId, outcome: JobOutcome,
    artifacts: bool, cleanup: bool, hasError: bool, artifactsKnown: bool)

  function ReportedRow(row: JobRow, result: JobResult): JobRow {
    row.(pending := Some(result.outcome),
         artifacts := row.artifacts || result.artifacts,
         cleanup := row.cleanup || result.cleanup)
  }

  function ReportRefusal(db: Db, result: JobResult, now: Time): Option<RepoError> {
    if result.cleanup && !result.artifacts then Some(Validation)
    else if result.outcome.Passed? && result.hasError then Some(Validation)
    else if result.job !in db.jobs then Some(NotFound)
    else
      var row := db.jobs[result.job];
      if row.worker != Some(result.worker) || row.lease != Some(result.lease) then Some(CasLost)
      else if row.state.Terminal() then Some(Conflict)
      else if row.pending.Some? && row.pending != Some(result.outcome) then Some(Conflict)
      else if !result.artifactsKnown then Some(Validation)
      else if row.expires.None? || row.expires.value <= now then Some(CasLost)
      else if !Checks(ReportedRow(row, result)) then Some(CheckViolation)
      else None
  }

  function Report(db: Db, result: JobResult, now: Time): (Db, Result<JobRow, RepoError>) {
    match ReportRefusal(db, result, now)
    case Some(error) => (db, Err(error))
    case None =>
      var row := ReportedRow(db.jobs[result.job], result);
      (db.(jobs := db.jobs[result.job := row],
           events := db.events + [JobEvent(result.job, EventResultRecorded, row.state)]),
       Ok(row))
  }

  // ----- Recovering a stale lease -----

  /** What the stale scan saw, and the cut-offs it scanned with. */
  datatype StaleJob = StaleJob(
    job: JobId, worker: WorkerId, lease: LeaseId, state: JobState, attempts: nat, expires: Time,
    expiredBefore: Time, heartbeatBefore: Time)

  datatype Disposition = LostRace | Requeued | Cancelling | Finalizing

  predicate SnapshotMatches(row: JobRow, stale: StaleJob) {
    && row.worker == Some(stale.worker)
    && row.lease == Some(stale.lease)
    && row.state == stale.state
    && row.attempts == stale.attempts
    && row.expires == Some(stale.expires)
  }

  /** Back to the queue, as if the attempt had left nothing behind. */
  function RequeuedRow(row: JobRow): JobRow {
    row.(state := Queued, worker := None, lease := None, expires := None,
         pending := None, outcome := None, artifacts := false, cleanup := false)
  }

  /** Onto the lease-free finalizer path under `outcome`. */
  function AbandonedRow(row: JobRow, outcome: JobOutcome): JobRow {
    row.(state := if row.state.CleaningUp? then CleaningUp else CollectingArtifacts,
         worker := None, lease := None, expires := None,
         pending := Some(outcome), outcome := None,
         artifacts := row.state.CleaningUp? && row.artifacts,
         cleanup := row.state.CleaningUp? && row.cleanup)
  }

  function RecoverVerdict(db: Db, stale: StaleJob, maxDeliver: nat): Disposition {
    if stale.job !in db.jobs then LostRace
    else
      var row := db.jobs[stale.job];
      if !SnapshotMatches(row, stale) || row.state.Queued? || row.state.Terminal() then LostRace
      else if stale.worker !in db.workers then LostRace
      else if stale.expires > stale.expiredBefore && db.workers[stale.worker].heartbeatAt > stale.heartbeatBefore then
        LostRace
      else if row.pending == Some(JobOutcome.Cancelled) then Cancelling
      else if stale.attempts < maxDeliver then Requeued
      else Finalizing
  }

  function RecoveredRow(row: JobRow, disposition: Disposition): JobRow
    requires !disposition.LostRace?
  {
    match disposition
    case Requeued => RequeuedRow(row)
    case Cancelling => AbandonedRow(row, JobOutcome.Cancelled)
    case Finalizing => AbandonedRow(row, JobOutcome.InfraFailed)
  }

  function RecoveryEvent(disposition: Disposition): EventKind
    requires !disposition.LostRace?
  {
    match disposition
    case Requeued => EventRequeued
    case Cancelling => EventRecoveryCancelled
    case Finalizing => EventRecoveryExhausted
  }

  function ExhaustionLetter(job: JobId, attempts: nat): DeadLetter {
    DeadLetter(Some(job), None, attempts, AttemptsExhausted)
  }

  /** `ON CONFLICT (event_key) DO NOTHING`. */
  function InsertLetter(outbox: map<OutboxKey, OutboxRow>, letter: DeadLetter): map<OutboxKey, OutboxRow>
    requires Validate(letter).None?
  {
    if Identity(letter) in outbox then outbox
    else outbox[Identity(letter) := OutboxRow(Some(letter), None, false)]
  }

  function Recover(db: Db, stale: StaleJob, maxDeliver: nat): (Db, Result<Disposition, RepoError>) {
    if maxDeliver == 0 then (db, Err(Validation))
    else
      var verdict := RecoverVerdict(db, stale, maxDeliver);
      if verdict.LostRace? then (db, Ok(LostRace))
      else
        var row := RecoveredRow(db.jobs[stale.job], verdict);
        if !Checks(row) then (db, Err(CheckViolation))
        else
          (db.(jobs := db.jobs[stale.job := row],
               workers := ReleaseIfPresent(db.workers, stale.worker),
               outbox := if verdict.Finalizing? then InsertLetter(db.outbox, ExhaustionLetter(stale.job, stale.attempts))
                         else db.outbox,
               events := db.events + [JobEvent(stale.job, RecoveryEvent(verdict), row.state)]),
           Ok(verdict))
  }

  // ----- Workers -----

  function Register(db: Db, worker: WorkerId, capacity: nat, runtimesValid: bool, now: Time)
    : (Db, Result<WorkerRow, RepoError>)
  {
    if !runtimesValid then (db, Err(Validation))
    else if worker in db.workers && db.workers[worker].active > capacity then (db, Err(Conflict))
    else
      var row := if worker in db.workers then db.workers[worker].(capacity := capacity, heartbeatAt := now)
                 else WorkerRow(Online, capacity, 0, now);
      (db.(workers := db.workers[worker := row]), Ok(row))
  }

  function SetMode(db: Db, worker: WorkerId, mode: WorkerMode): (Db, Result<WorkerRow, RepoError>) {
    if worker !in db.workers then (db, Err(NotFound))
    else
      var row := db.workers[worker].(mode := mode);
      (db.(workers := db.workers[worker := row]), Ok(row))
  }

  datatype Extension = Extension(job: JobId, lease: LeaseId)

  datatype Receipt = Receipt(extended: seq<Extension>, cancelRequested: seq<Extension>, rejected: seq<Extension>)

  datatype Heartbeat = Heartbeat(
    worker: WorkerId, reportedActive: nat, capacity: nat, runtimesValid: bool,
    extensions: seq<Extension>, ttl: int, now: Time)

  function HeartbeatRefusal(db: Db, beat: Heartbeat): Option<RepoError> {
    if beat.ttl <= 0 then Some(Validation)
    else if beat.reportedActive > beat.capacity then Some(Validation)
    else if !beat.runtimesValid then Some(Validation)
    else if beat.worker !in db.workers then Some(NotFound)
    else if db.workers[beat.worker].active > beat.capacity then Some(Conflict)
    else None
  }

  predicate Extendable(jobs: map<JobId, JobRow>, beat: Heartbeat, extension: Extension) {
    && extension.job in jobs
    && GuardHolds(jobs[extension.job], Guard(beat.worker, extension.lease), beat.now)
    && jobs[extension.job].pending.None?
    && !jobs[extension.job].state.Queued? && !jobs[extension.job].state.Terminal()
  }

  predicate CancelledUnder(jobs: map<JobId, JobRow>, beat: Heartbeat, extension: Extension) {
    && extension.job in jobs
    && jobs[extension.job].worker == Some(beat.worker) && jobs[extension.job].lease == Some(extension.lease)
    && jobs[extension.job].pending == Some(JobOutcome.Cancelled)
    && !jobs[extension.job].state.Terminal()
  }

  function ExtendedRow(row: JobRow, beat: Heartbeat): JobRow {
    row.(expires := Some(beat.now + beat.ttl))
  }

  function ExtendOne(jobs: map<JobId, JobRow>, beat: Heartbeat, extension: Extension): map<JobId, JobRow> {
    if Extendable(jobs, beat, extension) then jobs[extension.job := ExtendedRow(jobs[extension.job], beat)] else jobs
  }

  /** The job rows after the first `n` extensions. */
  function ExtendMany(jobs: map<JobId, JobRow>, beat: Heartbeat, n: nat): map<JobId, JobRow>
    requires n <= |beat.extensions|
  {
    if n == 0 then jobs else ExtendOne(ExtendMany(jobs, beat, n - 1), beat, beat.extensions[n - 1])
  }

  /** Where each of the first `n` extensions is reported. */
  function ReceiptFor(jobs: map<JobId, JobRow>, beat: Heartbeat, n: nat): Receipt
    requires n <= |beat.extensions|
  {
    if n == 0 then Receipt([], [], [])
    else
      var before := ExtendMany(jobs, beat, n - 1);
      var receipt := ReceiptFor(jobs, beat, n - 1);
      var extension := beat.extensions[n - 1];
      if Extendable(before, beat, extension) then receipt.(extended := receipt.extended + [extension])
      else if CancelledUnder(before, beat, extension) then
        receipt.(cancelRequested := receipt.cancelRequested + [extension])
      else receipt.(rejected := receipt.rejected + [extension])
  }

  function Beat(db: Db, beat: Heartbeat): (Db, Result<Receipt, RepoError>) {
    match HeartbeatRefusal(db, beat)
    case Some(error) => (db, Err(error))
    case None =>
      (db.(workers := db.workers[beat.worker :=
             db.workers[beat.worker].(capacity := beat.capacity, heartbeatAt := beat.now)],
           jobs := ExtendMany(db.jobs, beat, |beat.extensions|)),
       Ok(ReceiptFor(db.jobs, beat, |beat.extensions|)))
  }

  // ----- Outbox -----

  function EnqueueLetter(db: Db, letter: DeadLetter): (Db, Result<OutboxKey, RepoError>) {
    if Validate(letter).Some? then (db, Err(Validation))
    else (db.(outbox := InsertLetter(db.outbox, letter)), Ok(Identity(letter)))
  }

  function LeaseOutbox(db: Db, key: OutboxKey, dispatcher: string): (Db, Result<OutboxRow, RepoError>) {
    if key !in db.outbox || db.outbox[key].published then (db, Err(CasLost))
    else
      var row := db.outbox[key].(lockedBy := Some(dispatcher));
      (db.(outbox := db.outbox[key := row]), Ok(row))
  }

  predicate OwnsOutbox(db: Db, key: OutboxKey, dispatcher: string) {
    key in db.outbox && !db.outbox[key].published && db.outbox[key].lockedBy == Some(dispatcher)
  }

  function MarkPublished(db: Db, key: OutboxKey, dispatcher: string): (Db, Result<OutboxRow, RepoError>) {
    if !OwnsOutbox(db, key, dispatcher) then (db, Err(CasLost))
    else
      var row := db.outbox[key].(lockedBy := None, published := true);
      (db.(outbox := db.outbox[key := row]), Ok(row))
  }

  function RetryOutbox(db: Db, key: OutboxKey, dispatcher: string): (Db, Result<OutboxRow, RepoError>) {
    if !OwnsOutbox(db, key, dispatcher) then (db, Err(CasLost))
    else
      var row := db.outbox[key].(lockedBy := None);
      (db.(outbox := db.outbox[key := row]), Ok(row))
  }
}
