/** The repository object.  Its methods follow the statements of each transaction: early returns in
    order, counting queries, and updates whose WHERE clause tests again what was checked before the
    update.  What is written before a refusal is rolled back.  Each method is proved to commit
    exactly what its specification in `Store` says, or nothing, and no second test ever fails. */
module Repository {
  import opened Base
  import opened Lifecycle
  import opened DeadLetters
  import opened Store

  ghost function Reported(receipt: Receipt): multiset<Extension> {
    multiset(receipt.extended) + multiset(receipt.cancelRequested) + multiset(receipt.rejected)
  }

  lemma ReportedOnce(before: Receipt, after: Receipt, x: Extension)
    requires after == before.(extended := before.extended + [x])
      || after == before.(cancelRequested := before.cancelRequested + [x])
      || after == before.(rejected := before.rejected + [x])
    ensures Reported(after) == Reported(before) + multiset{x}
  {}

  lemma ReportGrows(before: Receipt, after: Receipt, extensions: seq<Extension>, n: nat)
    requires 0 < n <= |extensions| && Reported(before) == multiset(extensions[..n - 1])
    requires after == before.(extended := before.extended + [extensions[n - 1]])
      || after == before.(cancelRequested := before.cancelRequested + [extensions[n - 1]])
      || after == before.(rejected := before.rejected + [extensions[n - 1]])
    ensures Reported(after) == multiset(extensions[..n])
  {
    ReportedOnce(before, after, extensions[n - 1]);
    assert extensions[..n] == extensions[..n - 1] + [extensions[n - 1]];
  }

  /** A heartbeat reports every extension it was sent, once: as extended, as cancelled or as stale. */
  lemma {:induction false} ReceiptPartitions(jobs: map<JobId, JobRow>, beat: Heartbeat, n: nat)
    requires n <= |beat.extensions|
    ensures Reported(ReceiptFor(jobs, beat, n)) == multiset(beat.extensions[..n])
  {
    if n > 0 {
      ReceiptPartitions(jobs, beat, n - 1);
      ReportGrows(ReceiptFor(jobs, beat, n - 1), ReceiptFor(jobs, beat, n), beat.extensions, n);
    }
  }

  // ----- Statements -----

  /** `SELECT count(*)`: the matching rows, one by one. */
  method CountJobs(jobs: map<JobId, JobRow>, condition: JobRow -> bool) returns (n: nat)
    ensures n == |Rows(jobs, condition)|
  {
    n := 0;
    var left := jobs.Keys;
    ghost var counted: set<JobId> := {};
    while left != {}
      invariant left <= jobs.Keys && n == |counted|
      invariant counted == set j | j in jobs && j !in left && condition(jobs[j])
      decreases left
    {
      var j :| j in left;
      if condition(jobs[j]) {
        assert j !in counted;
        n, counted := n + 1, counted + {j};
      }
      left := left - {j};
    }
    assert counted == Rows(jobs, condition);
  }

  /** `UPDATE workers SET active_jobs = active_jobs + 1 WHERE state = 'online' AND active_jobs < capacity`. */
  method ReserveCapacity(workers: map<WorkerId, WorkerRow>, worker: WorkerId)
    returns (workers': map<WorkerId, WorkerRow>, affected: nat)
    ensures affected == 1 <==> worker in workers && workers[worker].mode.Online? && workers[worker].active < workers[worker].capacity
    ensures affected == 1 ==> workers' == workers[worker := Reserve(workers[worker])]
    ensures affected != 1 ==> affected == 0 && workers' == workers
  {
    if worker in workers && workers[worker].mode.Online? && workers[worker].active < workers[worker].capacity {
      workers' := workers[worker := workers[worker].(active := workers[worker].active + 1)];
      affected := 1;
    } else {
      workers', affected := workers, 0;
    }
  }

  /** `UPDATE workers SET active_jobs = GREATEST(active_jobs - 1, 0)`. */
  method ReleaseCapacity(workers: map<WorkerId, WorkerRow>, worker: WorkerId) returns (workers': map<WorkerId, WorkerRow>)
    ensures workers' == ReleaseIfPresent(workers, worker)
  {
    workers' := workers;
    if worker in workers {
      var active: int := workers[worker].active;
      workers' := workers[worker := workers[worker].(active := Max(active - 1, 0))];
    }
  }

  /** `UPDATE jobs ... WHERE <guard> RETURNING`: the row that was written, if the guard held. */
  function Returning(guard: bool, row: JobRow): Option<JobRow> {
    if guard then Some(row) else None
  }

  /** The three recovery updates: what each CASE expression leaves in the row. */
  method RecoveryUpdate(current: JobRow, requeue: bool, cancelling: bool) returns (row: JobRow)
    requires !(requeue && cancelling)
    ensures row == RecoveredRow(current, if requeue then Requeued else if cancelling then Cancelling else Finalizing)
  {
    row := current.(worker := None, lease := None, expires := None, outcome := None);
    if requeue {
      row := row.(state := Queued, pending := None, artifacts := false, cleanup := false);
    } else {
      var cleaning := current.state.CleaningUp?;
      row := row.(state := if cleaning then current.state else CollectingArtifacts,
                  pending := Some(if cancelling then JobOutcome.Cancelled else JobOutcome.InfraFailed),
                  artifacts := if cleaning then current.artifacts else false,
                  cleanup := if cleaning then current.cleanup else false);
    }
  }

  /** The transition update: COALESCE, OR and CASE for the columns; state, outcome and lease in the guard. */
  method TransitionUpdate(row: JobRow, request: MoveRequest) returns (written: Option<JobRow>)
    ensures written.Some? <==>
      && row.state == request.from
      && (request.evidence.pending.Some? && row.pending.Some? ==> row.pending == request.evidence.pending)
      && (request.guard.Some? ==> GuardHolds(row, request.guard.value, request.now))
    ensures written.Some? ==> written.value == MovedRow(row, request.to, request.evidence)
  {
    var evidence := request.evidence;
    var ended := request.to.TerminalOutcome().Some?;
    var moved := row.(
      state := request.to,
      pending := match evidence.pending { case Some(_) => evidence.pending case None => row.pending },
      artifacts := row.artifacts || evidence.artifacts,
      cleanup := row.cleanup || evidence.cleanup,
      outcome := request.to.TerminalOutcome(),
      lease := if ended then None else row.lease,
      expires := if ended then None else row.expires);
    var fenced := request.guard.None?
      || (row.worker == Some(request.guard.value.worker) && row.lease == Some(request.guard.value.lease)
          && row.expires.Some? && row.expires.value > request.now);
    written := Returning(
      row.state == request.from
      && (evidence.pending.None? || row.pending.None? || row.pending == evidence.pending) && fenced,
      moved);
  }

  lemma RecoveredOnce(db: Db, stale: StaleJob, maxDeliver: nat)
    requires Recover(db, stale, maxDeliver).1.Ok?
    ensures var db' := Recover(db, stale, maxDeliver).0; Recover(db', stale, maxDeliver) == (db', Ok(LostRace))
  {}

  lemma MovedOnce(db: Db, request: MoveRequest)
    requires Move(db, request).1.Ok?
    ensures var db' := Move(db, request).0; Move(db', request) == (db', Err(CasLost))
  {}

  class Repository {
    var projects: map<ProjectId, Quota>
    var jobs: map<JobId, JobRow>
    var keys: map<(ProjectId, string), JobId>
    var workers: map<WorkerId, WorkerRow>
    var outbox: map<OutboxKey, OutboxRow>
    var events: seq<JobEvent>

    function State(): Db
      reads this
    {
      Db(projects, jobs, keys, workers, outbox, events)
    }

    constructor (projects: map<ProjectId, Quota>)
      ensures State() == Db(projects, map[], map[], map[], map[], [])
    {
      this.projects := projects;
      jobs, keys, workers, outbox, events := map[], map[], map[], map[], [];
    }

    /** A job created under a key answers every later request under that key. */
    method CreateJob(request: CreateRequest, id: JobId) returns (r: Result<Created, RepoError>)
      modifies this
      ensures (State(), r) == Create(old(State()), request, id)
      ensures r.Err? || !r.value.wasCreated ==> State() == old(State())
      ensures r.Ok? ==> forall again: CreateRequest, other ::
        again.project == request.project && again.key == request.key ==>
          Create(State(), again, other) == (State(), Ok(Created(r.value.job, false)))
    {
      if !(1 <= |request.key| <= 255) { return Err(Validation); }
      for i := 0 to |request.key|
        invariant forall k :: 0 <= k < i ==> '!' <= request.key[k] <= '~'
        invariant State() == old(State())
      {
        if !('!' <= request.key[i] <= '~') { return Err(Validation); }
      }
      if (request.project, request.key) in keys {
        return Ok(Created(keys[(request.project, request.key)], false));
      }
      if request.project !in projects { return Err(NotFound); }
      var outstanding := CountJobs(jobs, IsOutstanding(request.project));
      if outstanding >= projects[request.project].maxOutstanding { return Err(QuotaExceeded); }
      if !request.admissible { return Err(Validation); }
      // ON CONFLICT (project_id, idempotency_key) DO NOTHING: the key is still free.
      assert (request.project, request.key) !in keys;
      var row := JobRow(request.project, request.key, request.spec, Queued, None, None, false, false, None, None, None, 0);
      var event := JobEvent(id, EventQueued, Queued);
      if QueuedKey(id) in outbox { return Err(Conflict); }
      jobs, keys := jobs[id := row], keys[(request.project, request.key) := id];
      events := events + [event];
      outbox := outbox[QueuedKey(id) := OutboxRow(None, None, false)];
      r := Ok(Created(id, true));
    }

    /** Repeating an accepted request changes nothing and appends no event. */
    method RequestCancellation(job: JobId) returns (r: Result<bool, RepoError>)
      modifies this
      ensures (State(), r) == Cancel(old(State()), job)
      ensures r != Ok(true) ==> State() == old(State())
      ensures r.Ok? ==> Cancel(State(), job) == (State(), Ok(false))
    {
      if job !in jobs { return Err(NotFound); }
      var current := jobs[job];
      if current.state.Terminal() { return Err(Conflict); }
      if current.pending.Some? {
        if current.pending.value.Cancelled? { return Ok(false); }
        return Err(Conflict);
      }
      var written := Returning(jobs[job].state == current.state && jobs[job].pending.None?,
                               jobs[job].(state := CollectingArtifacts, pending := Some(JobOutcome.Cancelled)));
      assert written.Some?;
      if !Checks(written.value) { return Err(CheckViolation); }
      jobs := jobs[job := written.value];
      events := events + [JobEvent(job, EventCancellationRequested, CollectingArtifacts)];
      r := Ok(true);
    }

    /** A claim that succeeds shuts out every other claim, and takes one place on its worker. */
    method ClaimJob(request: ClaimRequest) returns (r: Result<JobRow, RepoError>)
      modifies this
      ensures (State(), r) == Claim(old(State()), request)
      ensures r.Err? ==> State() == old(State())
      ensures r.Ok? ==> forall other: ClaimRequest ::
        other.job == request.job && other.staleAfter > 0 ==> Claim(State(), other) == (State(), Err(CasLost))
      ensures r.Ok? ==> request.worker in workers && workers[request.worker].active <= workers[request.worker].capacity
    {
      if request.staleAfter <= 0 { return Err(Validation); }
      if request.job !in jobs { return Err(NotFound); }
      var job := jobs[request.job];
      if !job.state.Queued? || job.lease.Some? || job.worker.Some? { return Err(CasLost); }
      if job.project !in projects { return Err(NotFound); }
      var running := CountJobs(jobs, IsRunning(job.project));
      if running >= projects[job.project].maxConcurrent { return Err(QuotaExceeded); }
      if request.worker !in workers { return Err(NotFound); }
      var worker := workers[request.worker];
      if request.expires <= request.now { return Err(Validation); }
      if !worker.mode.Online? { return Err(Conflict); }
      if worker.active >= worker.capacity { return Err(Conflict); }
      if worker.heartbeatAt < request.now - request.staleAfter { return Err(Conflict); }
      if !request.compatible { return Err(Conflict); }
      var workers', reserved := ReserveCapacity(workers, request.worker);
      assert reserved == 1;
      var written := Returning(jobs[request.job].state.Queued? && jobs[request.job].worker.None? && jobs[request.job].lease.None?,
                               job.(state := Claimed, worker := Some(request.worker), lease := Some(request.lease),
                                    expires := Some(request.expires), attempts := job.attempts + 1));
      assert written.Some?;
      if !Checks(written.value) { return Err(CheckViolation); }
      workers, jobs := workers', jobs[request.job := written.value];
      events := events + [JobEvent(request.job, EventClaimed, Claimed)];
      r := Ok(written.value);
    }

    /** An accepted transition cannot be replayed: its state has been left. */
    method TransitionJobState(request: MoveRequest) returns (r: Result<JobRow, RepoError>)
      modifies this
      ensures (State(), r) == Move(old(State()), request)
      ensures r.Err? ==> State() == old(State())
      ensures r.Ok? ==> Move(State(), request) == (State(), Err(CasLost))
    {
      ghost var before := State();
      var verdict := ValidateTransition(request.from, request.to, request.evidence);
      if verdict.Refused? { return Err(BadTransition(verdict.error)); }
      if request.job !in jobs { return Err(CasLost); }
      var written := TransitionUpdate(jobs[request.job], request);
      if written.None? { return Err(CasLost); }
      if !Checks(written.value) { return Err(CheckViolation); }
      jobs := jobs[request.job := written.value];
      if request.to.Terminal() && written.value.worker.Some? {
        workers := ReleaseCapacity(workers, written.value.worker.value);
      }
      events := events + [JobEvent(request.job, EventMoved, request.to)];
      r := Ok(written.value);
      MovedOnce(before, request);
    }

    /** Recording the same result again rewrites nothing, and another outcome is refused. */
    method RecordJobResult(result: JobResult, now: Time) returns (r: Result<JobRow, RepoError>)
      modifies this
      ensures (State(), r) == Report(old(State()), result, now)
      ensures r.Err? ==> State() == old(State())
      ensures r.Ok? ==> Report(State(), result, now).0.jobs == jobs && Report(State(), result, now).1 == r
      ensures r.Ok? ==> forall other: JobResult, t ::
        other.job == result.job && other.outcome != result.outcome ==> Report(State(), other, t).1.Err?
    {
      if result.cleanup && !result.artifacts { return Err(Validation); }
      if result.outcome.Passed? && result.hasError { return Err(Validation); }
      if result.job !in jobs { return Err(NotFound); }
      var current := jobs[result.job];
      if current.worker != Some(result.worker) || current.lease != Some(result.lease) { return Err(CasLost); }
      if current.state.Terminal() { return Err(Conflict); }
      // The second cleanup check cannot fail after the first.
      assert !(result.cleanup && !(current.artifacts || result.artifacts));
      if current.pending.Some? && current.pending.value != result.outcome { return Err(Conflict); }
      if !result.artifactsKnown { return Err(Validation); }
      var live := current.expires.Some? && current.expires.value > now;
      var written := Returning(
        jobs[result.job].worker == Some(result.worker) && jobs[result.job].lease == Some(result.lease) && live
        && (jobs[result.job].pending.None? || jobs[result.job].pending == Some(result.outcome))
        && !jobs[result.job].state.Terminal(),
        current.(pending := Some(result.outcome), artifacts := current.artifacts || result.artifacts,
                 cleanup := current.cleanup || result.cleanup));
      assert written.Some? <==> live;
      if written.None? { return Err(CasLost); }
      if !Checks(written.value) { return Err(CheckViolation); }
      jobs := jobs[result.job := written.value];
      events := events + [JobEvent(result.job, EventResultRecorded, current.state)];
      r := Ok(written.value);
    }

    /** A snapshot is recovered from at most once. */
    method RecoverStaleJob(stale: StaleJob, maxDeliver: nat) returns (r: Result<Disposition, RepoError>)
      modifies this
      ensures (State(), r) == Recover(old(State()), stale, maxDeliver)
      ensures r.Err? || r.value.LostRace? ==> State() == old(State())
      ensures r.Ok? ==> Recover(State(), stale, maxDeliver) == (State(), Ok(LostRace))
    {
      ghost var before := State();
      if maxDeliver == 0 { return Err(Validation); }
      if stale.job !in jobs { return Ok(LostRace); }
      var current := jobs[stale.job];
      var matches := current.worker == Some(stale.worker) && current.lease == Some(stale.lease)
        && current.state == stale.state && current.attempts == stale.attempts && current.expires == Some(stale.expires);
      if !matches || current.state.Queued? || current.state.Terminal() { return Ok(LostRace); }
      if stale.worker !in workers { return Ok(LostRace); }
      var leaseExpired := stale.expires <= stale.expiredBefore;
      var workerStale := workers[stale.worker].heartbeatAt <= stale.heartbeatBefore;
      if !leaseExpired && !workerStale { return Ok(LostRace); }
      var cancelling := current.pending == Some(JobOutcome.Cancelled);
      var requeue := !cancelling && stale.attempts < maxDeliver;
      var exhausted := !requeue && !cancelling;
      var row := RecoveryUpdate(current, requeue, cancelling);
      // The guard of the update is the snapshot that was just matched.
      var again := jobs[stale.job];
      var written := Returning(
        again.worker == Some(stale.worker) && again.lease == Some(stale.lease) && again.expires == Some(stale.expires)
        && again.state == stale.state && again.attempts == stale.attempts,
        row);
      assert written.Some?;
      if !Checks(written.value) { return Err(CheckViolation); }
      jobs := jobs[stale.job := written.value];
      workers := ReleaseCapacity(workers, stale.worker);
      var state := if requeue then Queued else if stale.state.CleaningUp? then CleaningUp else CollectingArtifacts;
      var kind := if requeue then EventRequeued else if cancelling then EventRecoveryCancelled else EventRecoveryExhausted;
      events := events + [JobEvent(stale.job, kind, state)];
      if exhausted {
        var letter := DeadLetter(Some(stale.job), None, stale.attempts, AttemptsExhausted);
        assert Validate(letter).None?;
        if Identity(letter) !in outbox {
          outbox := outbox[Identity(letter) := OutboxRow(Some(letter), None, false)];
        }
      }
      r := Ok(if requeue then Requeued else if cancelling then Cancelling else Finalizing);
      RecoveredOnce(before, stale, maxDeliver);
    }

    method UpsertWorker(worker: WorkerId, capacity: nat, runtimesValid: bool, now: Time)
      returns (r: Result<WorkerRow, RepoError>)
      modifies this
      ensures (State(), r) == Register(old(State()), worker, capacity, runtimesValid, now)
    {
      if !runtimesValid {
        return Err(Validation);
      }
      var row := WorkerRow(Online, capacity, 0, now);
      if worker in workers {
        if workers[worker].active > capacity {
          return Err(Conflict);
        }
        row := workers[worker].(capacity := capacity, heartbeatAt := now);
      }
      workers := workers[worker := row];
      r := Ok(row);
    }

    /** The extensions are applied one by one; each is reported in exactly one of three lists. */
    method RecordHeartbeat(beat: Heartbeat) returns (r: Result<Receipt, RepoError>)
      modifies this
      ensures (State(), r) == Beat(old(State()), beat)
    {
      if beat.ttl <= 0 { return Err(Validation); }
      if beat.reportedActive > beat.capacity { return Err(Validation); }
      if !beat.runtimesValid { return Err(Validation); }
      if beat.worker !in workers { return Err(NotFound); }
      if workers[beat.worker].active > beat.capacity { return Err(Conflict); }
      workers := workers[beat.worker := workers[beat.worker].(capacity := beat.capacity, heartbeatAt := beat.now)];
      var extended, cancelRequested, rejected := [], [], [];
      for i := 0 to |beat.extensions|
        invariant jobs == ExtendMany(old(jobs), beat, i)
        invariant Receipt(extended, cancelRequested, rejected) == ReceiptFor(old(jobs), beat, i)
        invariant projects == old(projects) && keys == old(keys) && outbox == old(outbox) && events == old(events)
        invariant workers == old(workers)[beat.worker :=
                    old(workers)[beat.worker].(capacity := beat.capacity, heartbeatAt := beat.now)]
      {
        var extension := beat.extensions[i];
        if Extendable(jobs, beat, extension) {
          jobs := jobs[extension.job := ExtendedRow(jobs[extension.job], beat)];
          extended := extended + [extension];
        } else if CancelledUnder(jobs, beat, extension) {
          cancelRequested := cancelRequested + [extension];
        } else {
          rejected := rejected + [extension];
        }
      }
      r := Ok(Receipt(extended, cancelRequested, rejected));
    }

    method EnqueueJobDeadLetter(letter: DeadLetter) returns (r: Result<OutboxKey, RepoError>)
      modifies this
      ensures (State(), r) == EnqueueLetter(old(State()), letter)
    {
      if Validate(letter).Some? {
        return Err(Validation);
      }
      var key := Identity(letter);
      if key !in outbox {
        outbox := outbox[key := OutboxRow(Some(letter), None, false)];
      }
      r := Ok(key);
    }

    /** A row is marked once: whoever tries again, or tries to lease or retry it, is refused. */
    method MarkOutboxPublished(key: OutboxKey, dispatcher: string) returns (r: Result<OutboxRow, RepoError>)
      modifies this
      ensures (State(), r) == MarkPublished(old(State()), key, dispatcher)
      ensures r.Err? ==> State() == old(State())
      ensures r.Ok? ==> forall other ::
        && MarkPublished(State(), key, other) == (State(), Err(CasLost))
        && RetryOutbox(State(), key, other) == (State(), Err(CasLost))
        && LeaseOutbox(State(), key, other) == (State(), Err(CasLost))
    {
      if key !in outbox { return Err(CasLost); }
      var row := outbox[key];
      if row.published || row.lockedBy != Some(dispatcher) { return Err(CasLost); }
      outbox := outbox[key := OutboxRow(row.letter, None, true)];
      r := Ok(outbox[key]);
    }
  }
}
