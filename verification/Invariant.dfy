/** What every step of every run keeps. */
module Invariant {
  import opened Base
  import opened Lifecycle
  import opened DeadLetters
  import opened Store
  import opened Runs

  // ----- Each row by itself -----

  /** The lifecycle facts that the hand-written updates keep between them. */
  predicate RowOk(row: JobRow, maxAttempts: nat) {
    && Checks(row)
    && (6 <= row.state.Rank() ==> row.pending.Some?)
    && (row.state.CleaningUp? ==> row.artifacts)
    && (row.state.Queued? ==> row.pending.None? && !row.artifacts && row.attempts < maxAttempts)
    && (!row.state.Terminal() ==> (row.worker.Some? <==> row.lease.Some?))
    && (row.state.Terminal() ==> row.lease.None?)
    && row.attempts <= maxAttempts
    && (row.lease.Some? ==> row.attempts >= 1)
    && (Settled(row) && !row.state.Terminal() ==>
          && (row.state.CollectingArtifacts? || row.state.CleaningUp?)
          && (row.pending == Some(JobOutcome.Cancelled) || row.pending == Some(JobOutcome.InfraFailed))
          && (row.pending == Some(JobOutcome.InfraFailed) ==> row.attempts == maxAttempts))
  }

  lemma RowStaysOk(w: World, j: JobId, row: JobRow, change: Change)
    requires w.maxAttempts > 0 && RowOk(row, w.maxAttempts) && Lawful(w, j, row, change)
    ensures RowOk(Changed(row, change), w.maxAttempts)
  {
    match change
    case ToMoved(move) => MovedRowStaysOk(w, j, row, move);
    case _ =>
  }

  lemma MovedRowStaysOk(w: World, j: JobId, row: JobRow, move: MoveRequest)
    requires RowOk(row, w.maxAttempts) && Lawful(w, j, row, ToMoved(move))
    ensures RowOk(MovedRow(row, move.to, move.evidence), w.maxAttempts)
  {
    if move.guard.None? {
      assert row.state.CollectingArtifacts? || row.state.CleaningUp?;
    }
  }

  ghost predicate RowsOk(w: World) {
    forall j :: j in w.db.jobs ==> RowOk(w.db.jobs[j], w.maxAttempts)
  }

  lemma StepKeepsRows(w: World, step: Step)
    requires w.maxAttempts > 0 && Enabled(w, step) && SeenOk(w) && RowsOk(w)
    ensures RowsOk(After(w, step))
  {
    StepKeys(w, step);
    forall j | j in w.db.jobs ensures RowOk(After(w, step).db.jobs[j], w.maxAttempts) {
      StepChanges(w, step, j);
      RowStaysOk(w, j, w.db.jobs[j], ChangeOf(w, step, j));
    }
  }

  /** Settlement is permanent, and takes the outcome and the attempt count with it. */
  lemma SettledForGood(w: World, j: JobId, row: JobRow, change: Change)
    requires RowOk(row, w.maxAttempts) && Lawful(w, j, row, change) && Settled(row)
    ensures Settled(Changed(row, change))
    ensures Changed(row, change).pending == row.pending && Changed(row, change).attempts == row.attempts
    ensures row.state.Rank() <= Changed(row, change).state.Rank() && Changed(row, change).worker == row.worker
    ensures row.state.Terminal() ==> Changed(row, change).state.Terminal()
  {}

  lemma TerminalRowsAreFrozen(w: World, j: JobId, row: JobRow, change: Change)
    requires RowOk(row, w.maxAttempts) && Lawful(w, j, row, change) && row.state.Terminal()
    ensures Changed(row, change) == row
  {}

  lemma StepKeepsSeen(w: World, step: Step)
    requires Enabled(w, step) && SeenOk(w) && RowsOk(w)
    ensures SeenOk(After(w, step))
  {
    var w' := After(w, step);
    forall j | j in w'.seen
      ensures j in w'.db.jobs && Settled(w'.db.jobs[j])
      ensures w'.db.jobs[j].pending == Some(w'.seen[j].outcome) && w'.db.jobs[j].attempts == w'.seen[j].attempts
      ensures w'.seen[j].outcome.Cancelled? || w'.seen[j].outcome.InfraFailed?
    {
      StepChanges(w, step, j);
      assert Settled(w.db.jobs[j]);
      SettledForGood(w, j, w.db.jobs[j], ChangeOf(w, step, j));
    }
  }

  // ----- Leases -----

  /** A held lease was generated for the job that holds it, on a registered worker. */
  ghost predicate LeasesOk(w: World) {
    forall j :: j in w.db.jobs && w.db.jobs[j].lease.Some? ==>
      && w.db.jobs[j].lease.value in w.issued && w.issued[w.db.jobs[j].lease.value] == j
      && w.db.jobs[j].worker.Some? && w.db.jobs[j].worker.value in w.db.workers
  }

  lemma StepKeepsWorkerKeys(w: World, step: Step)
    ensures w.db.workers.Keys <= After(w, step).db.workers.Keys
  {}

  /** A row's lease is the one it had, or the one just claimed. */
  lemma LeaseOrigin(w: World, step: Step, j: JobId)
    requires Enabled(w, step) && SeenOk(w) && j in w.db.jobs
    ensures j in After(w, step).db.jobs
    ensures var row' := After(w, step).db.jobs[j]; row'.lease.Some? ==>
      || (row'.lease == w.db.jobs[j].lease && row'.worker == w.db.jobs[j].worker)
      || (step.DoClaim? && ClaimRefusal(w.db, step.claim).None? && step.claim.job == j
          && row'.lease == Some(step.claim.lease) && row'.worker == Some(step.claim.worker))
  {
    StepChanges(w, step, j);
  }

  lemma StepKeepsIssued(w: World, step: Step)
    requires Enabled(w, step)
    ensures forall l :: l in w.issued ==> l in After(w, step).issued && After(w, step).issued[l] == w.issued[l]
    ensures step.DoClaim? ==> After(w, step).issued == w.issued[step.claim.lease := step.claim.job]
  {}

  lemma StepKeepsLeases(w: World, step: Step)
    requires Enabled(w, step) && SeenOk(w) && LeasesOk(w)
    ensures LeasesOk(After(w, step))
  {
    StepKeys(w, step);
    StepKeepsWorkerKeys(w, step);
    StepKeepsIssued(w, step);
    forall j | j in After(w, step).db.jobs && After(w, step).db.jobs[j].lease.Some?
      ensures After(w, step).db.jobs[j].lease.value in After(w, step).issued
      ensures After(w, step).issued[After(w, step).db.jobs[j].lease.value] == j
      ensures After(w, step).db.jobs[j].worker.Some?
      ensures After(w, step).db.jobs[j].worker.value in After(w, step).db.workers
    {
      if j in w.db.jobs { LeaseOrigin(w, step, j); }
    }
  }

  // ----- Counting rows -----

  lemma RowsAfterWrite(jobs: map<JobId, JobRow>, j: JobId, row: JobRow, condition: JobRow -> bool)
    ensures |Rows(jobs[j := row], condition)| ==
      |Rows(jobs, condition)| - (if j in jobs && condition(jobs[j]) then 1 else 0) + (if condition(row) then 1 else 0)
  {
    var before, after := Rows(jobs, condition), Rows(jobs[j := row], condition);
    RowsElsewhere(jobs, j, row, condition);
    OneElementMore(before, after, j);
  }

  lemma RowsElsewhere(jobs: map<JobId, JobRow>, j: JobId, row: JobRow, condition: JobRow -> bool)
    ensures forall k :: k != j ==> (k in Rows(jobs[j := row], condition) <==> k in Rows(jobs, condition))
    ensures j in Rows(jobs[j := row], condition) <==> condition(row)
    ensures j in Rows(jobs, condition) <==> j in jobs && condition(jobs[j])
  {}

  lemma OneElementMore(before: set<JobId>, after: set<JobId>, j: JobId)
    requires forall k :: k != j ==> (k in after <==> k in before)
    ensures |after| == |before| - (if j in before then 1 else 0) + (if j in after then 1 else 0)
  {
    assert before - {j} == after - {j};
    assert |before - {j}| == |before| - if j in before then 1 else 0;
    assert |after - {j}| == |after| - if j in after then 1 else 0;
  }

  lemma RowsUnmoved(jobs: map<JobId, JobRow>, jobs': map<JobId, JobRow>, condition: JobRow -> bool)
    requires jobs.Keys == jobs'.Keys
    requires forall j :: j in jobs ==> condition(jobs[j]) == condition(jobs'[j])
    ensures Rows(jobs', condition) == Rows(jobs, condition)
  {}

  // ----- Reservations -----

  ghost predicate WorkersOk(db: Db) {
    forall worker :: worker in db.workers ==>
      && db.workers[worker].active == |Rows(db.jobs, IsHeldBy(worker))|
      && db.workers[worker].active <= db.workers[worker].capacity
  }

  /** No row names an unregistered worker as its holder. */
  lemma NobodyHoldsForStrangers(w: World, worker: WorkerId)
    requires LeasesOk(w) && worker !in w.db.workers
    ensures |Rows(w.db.jobs, IsHeldBy(worker))| == 0
  {
    assert Rows(w.db.jobs, IsHeldBy(worker)) == {};
  }

  /** A reservation being given back was counted, so the clamp at zero is never what is stored. */
  lemma ReleaseIsExact(w: World, j: JobId)
    requires LeasesOk(w) && WorkersOk(w.db) && j in w.db.jobs && w.db.jobs[j].lease.Some?
    ensures w.db.jobs[j].worker.value in w.db.workers
    ensures var worker := w.db.workers[w.db.jobs[j].worker.value];
            worker.active >= 1 && Release(worker) == worker.(active := worker.active - 1)
  {
    assert j in Rows(w.db.jobs, IsHeldBy(w.db.jobs[j].worker.value));
  }

  lemma ClaimKeepsWorkers(w: World, claim: ClaimRequest)
    requires WorkersOk(w.db) && ClaimRefusal(w.db, claim).None?
    ensures WorkersOk(Claim(w.db, claim).0)
  {
    var db' := Claim(w.db, claim).0;
    forall worker | worker in db'.workers
      ensures db'.workers[worker].active == |Rows(db'.jobs, IsHeldBy(worker))|
    {
      RowsAfterWrite(w.db.jobs, claim.job, ClaimedRow(w.db.jobs[claim.job], claim), IsHeldBy(worker));
    }
  }

  lemma MoveKeepsWorkers(w: World, move: MoveRequest)
    requires WorkersOk(w.db) && LeasesOk(w) && RowsOk(w) && MoveRefusal(w.db, move).None?
    ensures WorkersOk(Move(w.db, move).0)
  {
    var db' := Move(w.db, move).0;
    var row := w.db.jobs[move.job];
    if row.lease.Some? { ReleaseIsExact(w, move.job); }
    forall worker | worker in db'.workers
      ensures db'.workers[worker].active == |Rows(db'.jobs, IsHeldBy(worker))|
    {
      RowsAfterWrite(w.db.jobs, move.job, MovedRow(row, move.to, move.evidence), IsHeldBy(worker));
    }
  }

  lemma RecoverKeepsWorkers(w: World, stale: StaleJob)
    requires WorkersOk(w.db) && LeasesOk(w)
    ensures WorkersOk(Recover(w.db, stale, w.maxAttempts).0)
  {
    var db' := Recover(w.db, stale, w.maxAttempts).0;
    if db' != w.db {
      var row := w.db.jobs[stale.job];
      ReleaseIsExact(w, stale.job);
      forall worker | worker in db'.workers
        ensures db'.workers[worker].active == |Rows(db'.jobs, IsHeldBy(worker))|
      {
        RowsAfterWrite(w.db.jobs, stale.job, db'.jobs[stale.job], IsHeldBy(worker));
      }
    }
  }

  predicate TouchesLeases(step: Step) {
    step.DoClaim? || step.DoMove? || step.DoFinalize? || step.DoRecover?
  }

  lemma QuietStepKeepsHolder(w: World, step: Step, j: JobId)
    requires SeenOk(w) && Enabled(w, step) && !TouchesLeases(step) && j in w.db.jobs
    ensures j in After(w, step).db.jobs
    ensures After(w, step).db.jobs[j].lease == w.db.jobs[j].lease
    ensures After(w, step).db.jobs[j].worker == w.db.jobs[j].worker
  {
    StepChanges(w, step, j);
  }

  lemma QuietStepKeepsCount(w: World, step: Step, worker: WorkerId)
    requires SeenOk(w) && Enabled(w, step) && !TouchesLeases(step)
    ensures |Rows(After(w, step).db.jobs, IsHeldBy(worker))| == |Rows(w.db.jobs, IsHeldBy(worker))|
  {
    StepKeys(w, step);
    if Inserts(w, step) {
      RowsAfterWrite(w.db.jobs, step.id, NewRow(step.create), IsHeldBy(worker));
    } else {
      var jobs' := After(w, step).db.jobs;
      forall j | j in w.db.jobs ensures IsHeldBy(worker)(w.db.jobs[j]) == IsHeldBy(worker)(jobs'[j]) {
        QuietStepKeepsHolder(w, step, j);
      }
      RowsUnmoved(w.db.jobs, jobs', IsHeldBy(worker));
    }
  }

  lemma QuietStepKeepsActive(w: World, step: Step, worker: WorkerId)
    requires WorkersOk(w.db) && !TouchesLeases(step) && worker in After(w, step).db.workers
    ensures var row := After(w, step).db.workers[worker];
            row.active <= row.capacity
            && row.active == if worker in w.db.workers then w.db.workers[worker].active else 0
  {}

  lemma QuietStepKeepsWorkers(w: World, step: Step)
    requires WorkersOk(w.db) && LeasesOk(w) && SeenOk(w) && Enabled(w, step) && !TouchesLeases(step)
    ensures WorkersOk(After(w, step).db)
  {
    forall worker | worker in After(w, step).db.workers
      ensures After(w, step).db.workers[worker].active == |Rows(After(w, step).db.jobs, IsHeldBy(worker))|
      ensures After(w, step).db.workers[worker].active <= After(w, step).db.workers[worker].capacity
    {
      if worker !in w.db.workers { NobodyHoldsForStrangers(w, worker); }
      QuietStepKeepsActive(w, step, worker);
      QuietStepKeepsCount(w, step, worker);
    }
  }

  lemma StepKeepsWorkers(w: World, step: Step)
    requires Enabled(w, step) && SeenOk(w) && RowsOk(w) && LeasesOk(w) && WorkersOk(w.db)
    ensures WorkersOk(After(w, step).db)
  {
    match step
    case DoClaim(claim) => if ClaimRefusal(w.db, claim).None? { ClaimKeepsWorkers(w, claim); }
    case DoMove(move) => if MoveRefusal(w.db, move).None? { MoveKeepsWorkers(w, move); }
    case DoFinalize(job, finish) =>
      var move := FinalizeRequest(job, w.seen[job].outcome, finish);
      if MoveRefusal(w.db, move).None? { MoveKeepsWorkers(w, move); }
    case DoRecover(stale) => RecoverKeepsWorkers(w, stale);
    case _ => QuietStepKeepsWorkers(w, step);
  }

  // ----- Quotas -----

  ghost predicate QuotasOk(db: Db) {
    && (forall j :: j in db.jobs ==> db.jobs[j].project in db.projects)
    && (forall p :: p in db.projects ==>
          && |Rows(db.jobs, IsRunning(p))| <= db.projects[p].maxConcurrent
          && |Rows(db.jobs, IsOutstanding(p))| <= db.projects[p].maxOutstanding)
  }

  lemma RowsShrink(jobs: map<JobId, JobRow>, jobs': map<JobId, JobRow>, condition: JobRow -> bool)
    requires jobs.Keys == jobs'.Keys
    requires forall j :: j in jobs && condition(jobs'[j]) ==> condition(jobs[j])
    ensures |Rows(jobs', condition)| <= |Rows(jobs, condition)|
  {
    SubsetIsSmaller(Rows(jobs', condition), Rows(jobs, condition));
  }

  lemma SubsetIsSmaller<T>(a: set<T>, b: set<T>)
    requires a <= b
    ensures |a| <= |b|
  {
    if a != {} {
      var x :| x in a;
      SubsetIsSmaller(a - {x}, b - {x});
    }
  }

  predicate CountsAgainst(step: Step) {
    step.DoCreate? || step.DoClaim?
  }

  lemma StepKeepsProject(w: World, step: Step, j: JobId)
    requires SeenOk(w) && Enabled(w, step) && j in w.db.jobs
    ensures j in After(w, step).db.jobs && After(w, step).db.jobs[j].project == w.db.jobs[j].project
  {
    StepChanges(w, step, j);
  }

  lemma RowsOnlyLeaveCounts(w: World, step: Step, j: JobId, p: ProjectId)
    requires SeenOk(w) && RowsOk(w) && Enabled(w, step) && !CountsAgainst(step) && j in w.db.jobs
    ensures j in After(w, step).db.jobs
    ensures IsRunning(p)(After(w, step).db.jobs[j]) ==> IsRunning(p)(w.db.jobs[j])
    ensures IsOutstanding(p)(After(w, step).db.jobs[j]) ==> IsOutstanding(p)(w.db.jobs[j])
  {
    StepChanges(w, step, j);
    assert !ChangeOf(w, step, j).ToClaimed?;
  }

  lemma CreateKeepsQuotas(db: Db, create: CreateRequest, id: JobId, p: ProjectId)
    requires QuotasOk(db) && id !in db.jobs && p in db.projects
    ensures |Rows(Create(db, create, id).0.jobs, IsRunning(p))| <= db.projects[p].maxConcurrent
    ensures |Rows(Create(db, create, id).0.jobs, IsOutstanding(p))| <= db.projects[p].maxOutstanding
  {
    CreateAddsAtMostOne(db, create, id);
    if Create(db, create, id).0.jobs != db.jobs {
      RowsAfterWrite(db.jobs, id, NewRow(create), IsRunning(p));
      RowsAfterWrite(db.jobs, id, NewRow(create), IsOutstanding(p));
    }
  }

  lemma CreateAddsAtMostOne(db: Db, create: CreateRequest, id: JobId)
    ensures var jobs := Create(db, create, id).0.jobs;
      jobs == db.jobs || (jobs == db.jobs[id := NewRow(create)] && CreateRefusal(db, create).None?)
  {}

  lemma ClaimKeepsQuotas(db: Db, claim: ClaimRequest, p: ProjectId)
    requires QuotasOk(db) && p in db.projects
    ensures |Rows(Claim(db, claim).0.jobs, IsRunning(p))| <= db.projects[p].maxConcurrent
    ensures |Rows(Claim(db, claim).0.jobs, IsOutstanding(p))| <= db.projects[p].maxOutstanding
  {
    if ClaimRefusal(db, claim).None? {
      RowsAfterWrite(db.jobs, claim.job, ClaimedRow(db.jobs[claim.job], claim), IsRunning(p));
      RowsAfterWrite(db.jobs, claim.job, ClaimedRow(db.jobs[claim.job], claim), IsOutstanding(p));
    }
  }

  lemma OtherStepKeepsQuotas(w: World, step: Step, p: ProjectId)
    requires SeenOk(w) && RowsOk(w) && QuotasOk(w.db) && Enabled(w, step) && !CountsAgainst(step)
    requires p in w.db.projects
    ensures |Rows(After(w, step).db.jobs, IsRunning(p))| <= w.db.projects[p].maxConcurrent
    ensures |Rows(After(w, step).db.jobs, IsOutstanding(p))| <= w.db.projects[p].maxOutstanding
  {
    StepKeys(w, step);
    var jobs' := After(w, step).db.jobs;
    forall j | j in w.db.jobs
      ensures IsRunning(p)(jobs'[j]) ==> IsRunning(p)(w.db.jobs[j])
      ensures IsOutstanding(p)(jobs'[j]) ==> IsOutstanding(p)(w.db.jobs[j])
    {
      RowsOnlyLeaveCounts(w, step, j, p);
    }
    RowsShrink(w.db.jobs, jobs', IsRunning(p));
    RowsShrink(w.db.jobs, jobs', IsOutstanding(p));
  }

  lemma StepKeepsProjects(w: World, step: Step)
    ensures After(w, step).db.projects == w.db.projects
    ensures Inserts(w, step) ==> step.create.project in w.db.projects
  {}

  lemma StepKeepsQuotas(w: World, step: Step)
    requires Enabled(w, step) && SeenOk(w) && RowsOk(w) && QuotasOk(w.db)
    ensures QuotasOk(After(w, step).db)
  {
    StepKeys(w, step);
    StepKeepsProjects(w, step);
    forall j | j in w.db.jobs ensures After(w, step).db.jobs[j].project in w.db.projects {
      StepKeepsProject(w, step, j);
    }
    forall p | p in w.db.projects
      ensures |Rows(After(w, step).db.jobs, IsRunning(p))| <= w.db.projects[p].maxConcurrent
      ensures |Rows(After(w, step).db.jobs, IsOutstanding(p))| <= w.db.projects[p].maxOutstanding
    {
      match step
      case DoCreate(create, id) => CreateKeepsQuotas(w.db, create, id, p);
      case DoClaim(claim) => ClaimKeepsQuotas(w.db, claim, p);
      case _ => OtherStepKeepsQuotas(w, step, p);
    }
  }

  // ----- Outbox -----

  /** A job marked exhausted: settled under InfraFailed at the last permitted attempt, and no
      longer any worker's. */
  predicate Exhausted(w: World, j: JobId) {
    && j in w.db.jobs && Settled(w.db.jobs[j]) && w.db.jobs[j].worker.None?
    && w.db.jobs[j].pending == Some(JobOutcome.InfraFailed) && w.db.jobs[j].attempts == w.maxAttempts
  }

  /** Lease-free and not yet terminal, with InfraFailed to come. */
  predicate AwaitsFailure(row: JobRow) {
    Settled(row) && !row.state.Terminal() && row.pending == Some(JobOutcome.InfraFailed)
  }

  /** The exhaustion row of a job, if it has one, carries the letter its key stands for. */
  predicate MarkerMatches(row: OutboxRow, j: JobId, attempt: nat) {
    && row.letter.Some? && row.letter.value.reason.AttemptsExhausted?
    && row.letter.value.job == Some(j) && row.letter.value.attempt == attempt
  }

  /** Exactly the jobs have queue rows.  Exhaustion rows belong to exhausted jobs, one per job, and
      carry the matching letter; and no lease-free job waits under InfraFailed without one. */
  ghost predicate OutboxOk(w: World) {
    && (forall j :: j in w.db.jobs <==> QueuedKey(j) in w.db.outbox)
    && (forall j, a :: ExhaustedKey(j, a) in w.db.outbox ==>
          a == w.maxAttempts && Exhausted(w, j) && MarkerMatches(w.db.outbox[ExhaustedKey(j, a)], j, a))
    && (forall j :: j in w.db.jobs && AwaitsFailure(w.db.jobs[j]) ==> ExhaustedKey(j, w.maxAttempts) in w.db.outbox)
    && (forall j :: j in w.seen && w.seen[j].outcome.InfraFailed? ==> ExhaustedKey(j, w.maxAttempts) in w.db.outbox)
  }

  /** Outbox rows are never deleted and never change their letter. */
  lemma StepGrowsOutbox(w: World, step: Step)
    ensures w.db.outbox.Keys <= After(w, step).db.outbox.Keys
    ensures forall k :: k in w.db.outbox ==> After(w, step).db.outbox[k].letter == w.db.outbox[k].letter
  {}

  lemma QueueRowsFollowJobs(w: World, step: Step, j: JobId)
    requires Enabled(w, step)
    ensures QueuedKey(j) in After(w, step).db.outbox <==>
      QueuedKey(j) in w.db.outbox || (Inserts(w, step) && step.id == j)
  {}

  /** Only the recovery that exhausts a job adds an exhaustion row. */
  predicate ExhaustsNow(w: World, step: Step, j: JobId) {
    && step.DoRecover? && step.stale.job == j
    && Recover(w.db, step.stale, w.maxAttempts).1 == Ok(Finalizing)
  }

  lemma RecoveryAddsMarker(w: World, step: Step, j: JobId)
    requires ExhaustsNow(w, step, j) && RowsOk(w) && w.maxAttempts > 0
    ensures step.stale.attempts == w.maxAttempts && ExhaustedKey(j, w.maxAttempts) in After(w, step).db.outbox
    ensures Exhausted(After(w, step), j)
  {
    assert RowOk(w.db.jobs[j], w.maxAttempts);
  }

  /** Every exhaustion letter that anyone else enqueues replays a row that is already there. */
  lemma LettersReplay(w: World, letter: DeadLetter)
    requires SeenOk(w) && RowsOk(w) && OutboxOk(w) && w.maxAttempts > 0
    requires Validate(letter).None? && letter.reason.AttemptsExhausted? && LetterIsJustified(w, letter)
    ensures Identity(letter) in w.db.outbox && EnqueueLetter(w.db, letter) == (w.db, Ok(Identity(letter)))
    ensures letter.attempt == w.maxAttempts
  {
    var j := letter.job.value;
    assert ExhaustedKey(j, letter.attempt) in w.db.outbox || ExhaustedKey(j, w.maxAttempts) in w.db.outbox;
    assert Exhausted(w, j);
  }

  lemma MarkerOrigin(w: World, step: Step, j: JobId, a: nat)
    requires Enabled(w, step) && SeenOk(w) && RowsOk(w) && OutboxOk(w) && w.maxAttempts > 0
    requires ExhaustedKey(j, a) in After(w, step).db.outbox && ExhaustedKey(j, a) !in w.db.outbox
    ensures ExhaustsNow(w, step, j) && a == w.maxAttempts
    ensures MarkerMatches(After(w, step).db.outbox[ExhaustedKey(j, a)], j, a)
  {
    match step
    case DoEnqueue(letter) =>
      if Validate(letter).None? && letter.reason.AttemptsExhausted? { LettersReplay(w, letter); }
    case DoRecover(stale) =>
      assert stale.job in w.db.jobs && RowOk(w.db.jobs[stale.job], w.maxAttempts);
    case _ =>
  }

  lemma ExhaustionIsPermanent(w: World, step: Step, j: JobId)
    requires Enabled(w, step) && SeenOk(w) && RowsOk(w) && Exhausted(w, j)
    ensures Exhausted(After(w, step), j)
  {
    StepChanges(w, step, j);
    assert RowOk(w.db.jobs[j], w.maxAttempts);
    SettledForGood(w, j, w.db.jobs[j], ChangeOf(w, step, j));
  }

  lemma AwaitOrigin(w: World, step: Step, j: JobId)
    requires Enabled(w, step) && SeenOk(w) && RowsOk(w) && j in w.db.jobs
    requires j in After(w, step).db.jobs && AwaitsFailure(After(w, step).db.jobs[j])
    ensures AwaitsFailure(w.db.jobs[j]) || ExhaustsNow(w, step, j)
  {
    StepChanges(w, step, j);
    assert RowOk(w.db.jobs[j], w.maxAttempts);
  }

  lemma StepKeepsMarkers(w: World, step: Step, j: JobId, a: nat)
    requires Enabled(w, step) && SeenOk(w) && RowsOk(w) && OutboxOk(w) && w.maxAttempts > 0
    requires ExhaustedKey(j, a) in After(w, step).db.outbox
    ensures a == w.maxAttempts && Exhausted(After(w, step), j)
    ensures MarkerMatches(After(w, step).db.outbox[ExhaustedKey(j, a)], j, a)
  {
    StepGrowsOutbox(w, step);
    if ExhaustedKey(j, a) in w.db.outbox {
      ExhaustionIsPermanent(w, step, j);
    } else {
      MarkerOrigin(w, step, j, a);
      RecoveryAddsMarker(w, step, j);
    }
  }

  lemma SightingsAreMarked(w: World, step: Step, j: JobId)
    requires SeenOk(w) && RowsOk(w) && OutboxOk(w)
    requires j in After(w, step).seen && After(w, step).seen[j].outcome.InfraFailed?
    ensures ExhaustedKey(j, w.maxAttempts) in w.db.outbox
  {
    if step.DoObserve? && step.job == j && j in w.db.jobs {
      assert RowOk(w.db.jobs[j], w.maxAttempts);
    }
  }

  lemma StepKeepsOutbox(w: World, step: Step)
    requires Enabled(w, step) && SeenOk(w) && RowsOk(w) && OutboxOk(w) && w.maxAttempts > 0
    ensures OutboxOk(After(w, step))
  {
    StepKeys(w, step);
    StepGrowsOutbox(w, step);
    forall j ensures j in After(w, step).db.jobs <==> QueuedKey(j) in After(w, step).db.outbox {
      QueueRowsFollowJobs(w, step, j);
    }
    forall j, a | ExhaustedKey(j, a) in After(w, step).db.outbox
      ensures a == w.maxAttempts && Exhausted(After(w, step), j)
      ensures MarkerMatches(After(w, step).db.outbox[ExhaustedKey(j, a)], j, a)
    {
      StepKeepsMarkers(w, step, j, a);
    }
    forall j | j in After(w, step).db.jobs && AwaitsFailure(After(w, step).db.jobs[j])
      ensures ExhaustedKey(j, w.maxAttempts) in After(w, step).db.outbox
    {
      if j in w.db.jobs {
        AwaitOrigin(w, step, j);
        if ExhaustsNow(w, step, j) { RecoveryAddsMarker(w, step, j); }
      }
    }
    forall j | j in After(w, step).seen && After(w, step).seen[j].outcome.InfraFailed?
      ensures ExhaustedKey(j, w.maxAttempts) in After(w, step).db.outbox
    {
      SightingsAreMarked(w, step, j);
    }
  }

  // ----- Idempotency index -----

  /** The index and the rows agree, so a project's key names one job for ever. */
  ghost predicate KeysOk(db: Db) {
    && (forall j :: j in db.jobs ==>
          (db.jobs[j].project, db.jobs[j].key) in db.keys && db.keys[(db.jobs[j].project, db.jobs[j].key)] == j)
    && (forall k :: k in db.keys ==>
          db.keys[k] in db.jobs && db.jobs[db.keys[k]].project == k.0 && db.jobs[db.keys[k]].key == k.1)
  }

  lemma StepKeepsIdentity(w: World, step: Step, j: JobId)
    requires Enabled(w, step) && SeenOk(w) && j in w.db.jobs
    ensures j in After(w, step).db.jobs
    ensures After(w, step).db.jobs[j].project == w.db.jobs[j].project
    ensures After(w, step).db.jobs[j].key == w.db.jobs[j].key
    ensures After(w, step).db.jobs[j].spec == w.db.jobs[j].spec
  {
    StepChanges(w, step, j);
  }

  lemma StepKeepsIndex(w: World, step: Step)
    ensures !Inserts(w, step) ==> After(w, step).db.keys == w.db.keys
    ensures Inserts(w, step) ==>
      After(w, step).db.keys == w.db.keys[(step.create.project, step.create.key) := step.id]
      && (step.create.project, step.create.key) !in w.db.keys
  {}

  lemma StepKeepsKeys(w: World, step: Step)
    requires Enabled(w, step) && SeenOk(w) && KeysOk(w.db)
    ensures KeysOk(After(w, step).db)
  {
    StepKeys(w, step);
    StepKeepsIndex(w, step);
    forall j | j in w.db.jobs
      ensures After(w, step).db.jobs[j].project == w.db.jobs[j].project
      ensures After(w, step).db.jobs[j].key == w.db.jobs[j].key
    {
      StepKeepsIdentity(w, step, j);
    }
  }

  // ----- Event log -----

  function LastState(events: seq<JobEvent>, j: JobId): Option<JobState> {
    if events == [] then None
    else if events[|events| - 1].job == j then Some(events[|events| - 1].state)
    else LastState(events[..|events| - 1], j)
  }

  function QueuedEvents(events: seq<JobEvent>, j: JobId): nat {
    if events == [] then 0
    else
      var last := events[|events| - 1];
      QueuedEvents(events[..|events| - 1], j) + (if last.job == j && last.kind.EventQueued? then 1 else 0)
  }

  /** The log ends, for each job, in the state its row is in; and it opens with one queued event. */
  ghost predicate EventsOk(db: Db) {
    && (forall j :: j in db.jobs ==> LastState(db.events, j) == Some(db.jobs[j].state) && QueuedEvents(db.events, j) == 1)
    && (forall j :: j !in db.jobs ==> LastState(db.events, j) == None && QueuedEvents(db.events, j) == 0)
  }

  lemma AppendedEvent(events: seq<JobEvent>, event: JobEvent, j: JobId)
    ensures LastState(events + [event], j) == if event.job == j then Some(event.state) else LastState(events, j)
    ensures QueuedEvents(events + [event], j) ==
      QueuedEvents(events, j) + if event.job == j && event.kind.EventQueued? then 1 else 0
  {
    assert (events + [event])[..|events|] == events;
  }

  /** A step writes nothing to the log, or one event. */
  lemma StepAppends(w: World, step: Step)
    ensures After(w, step).db.events == w.db.events
      || (|After(w, step).db.events| == |w.db.events| + 1
          && After(w, step).db.events == w.db.events + [After(w, step).db.events[|w.db.events|]])
  {}

  ghost predicate EventTellsState(w: World, step: Step, j: JobId)
    requires j in w.db.jobs
  {
    && j in After(w, step).db.jobs
    && (After(w, step).db.events == w.db.events ==> After(w, step).db.jobs[j].state == w.db.jobs[j].state)
    && (|After(w, step).db.events| > |w.db.events| ==>
          var event := After(w, step).db.events[|w.db.events|];
          if event.job == j then event.state == After(w, step).db.jobs[j].state && !event.kind.EventQueued?
          else After(w, step).db.jobs[j].state == w.db.jobs[j].state)
  }

  lemma MoveTellsState(w: World, step: Step, j: JobId)
    requires Enabled(w, step) && j in w.db.jobs && (step.DoMove? || step.DoFinalize?)
    ensures EventTellsState(w, step, j)
  {}

  lemma RecoveryTellsState(w: World, step: Step, j: JobId)
    requires Enabled(w, step) && j in w.db.jobs && step.DoRecover?
    ensures EventTellsState(w, step, j)
  {}

  lemma RequestTellsState(w: World, step: Step, j: JobId)
    requires Enabled(w, step) && j in w.db.jobs && (step.DoCreate? || step.DoCancel?)
    ensures EventTellsState(w, step, j)
  {}

  lemma ClaimTellsState(w: World, step: Step, j: JobId)
    requires Enabled(w, step) && j in w.db.jobs && step.DoClaim?
    ensures EventTellsState(w, step, j)
  {}

  lemma ReportTellsState(w: World, step: Step, j: JobId)
    requires Enabled(w, step) && j in w.db.jobs && step.DoReport?
    ensures EventTellsState(w, step, j)
  {}

  /** A row's state changes only together with an event that says so. */
  lemma EventMatchesRow(w: World, step: Step, j: JobId)
    requires Enabled(w, step) && SeenOk(w) && j in w.db.jobs
    ensures EventTellsState(w, step, j)
  {
    match step
    case DoMove(_) => MoveTellsState(w, step, j);
    case DoFinalize(_, _) => MoveTellsState(w, step, j);
    case DoRecover(_) => RecoveryTellsState(w, step, j);
    case DoCreate(_, _) => RequestTellsState(w, step, j);
    case DoCancel(_) => RequestTellsState(w, step, j);
    case DoClaim(_) => ClaimTellsState(w, step, j);
    case DoReport(_, _) => ReportTellsState(w, step, j);
    case DoBeat(beat) => StepChanges(w, step, j);
    case _ =>
  }

  /** Only a creation logs an event for a job that has no row yet. */
  lemma EventsNeedRows(w: World, step: Step)
    requires Enabled(w, step) && |After(w, step).db.events| > |w.db.events|
    ensures var event := After(w, step).db.events[|w.db.events|];
      if Inserts(w, step) then event == JobEvent(step.id, EventQueued, Queued) else event.job in w.db.jobs
  {}

  lemma StepKeepsEventsOf(w: World, step: Step, j: JobId)
    requires Enabled(w, step) && SeenOk(w) && EventsOk(w.db)
    ensures j in After(w, step).db.jobs ==> LastState(After(w, step).db.events, j) == Some(After(w, step).db.jobs[j].state)
    ensures j in After(w, step).db.jobs ==> QueuedEvents(After(w, step).db.events, j) == 1
    ensures j !in After(w, step).db.jobs ==>
      LastState(After(w, step).db.events, j) == None && QueuedEvents(After(w, step).db.events, j) == 0
  {
    StepKeys(w, step);
    StepAppends(w, step);
    var events' := After(w, step).db.events;
    if j in w.db.jobs { EventMatchesRow(w, step, j); }
    if |events'| > |w.db.events| {
      EventsNeedRows(w, step);
      AppendedEvent(w.db.events, events'[|w.db.events|], j);
    } else {
      assert !Inserts(w, step);
    }
  }

  lemma StepKeepsEvents(w: World, step: Step)
    requires Enabled(w, step) && SeenOk(w) && EventsOk(w.db)
    ensures EventsOk(After(w, step).db)
  {
    forall j
      ensures j in After(w, step).db.jobs ==>
        LastState(After(w, step).db.events, j) == Some(After(w, step).db.jobs[j].state)
        && QueuedEvents(After(w, step).db.events, j) == 1
      ensures j !in After(w, step).db.jobs ==>
        LastState(After(w, step).db.events, j) == None && QueuedEvents(After(w, step).db.events, j) == 0
    {
      StepKeepsEventsOf(w, step, j);
    }
  }

  // ----- All of it -----

  ghost predicate WorldOk(w: World) {
    && w.maxAttempts > 0
    && RowsOk(w) && SeenOk(w) && LeasesOk(w) && OutboxOk(w)
    && WorkersOk(w.db) && QuotasOk(w.db) && KeysOk(w.db) && EventsOk(w.db)
  }

  lemma EmptyWorldIsOk(w: World)
    requires EmptyWorld(w)
    ensures WorldOk(w)
  {
    forall p ensures |Rows(w.db.jobs, IsRunning(p))| == 0 && |Rows(w.db.jobs, IsOutstanding(p))| == 0 {
      assert Rows(w.db.jobs, IsRunning(p)) == {} && Rows(w.db.jobs, IsOutstanding(p)) == {};
    }
  }

  /** Every enabled step keeps everything above. */
  lemma StepKeepsOk(w: World, step: Step)
    requires WorldOk(w) && Enabled(w, step)
    ensures WorldOk(After(w, step))
  {
    StepKeepsRows(w, step);
    StepKeepsSeen(w, step);
    StepKeepsLeases(w, step);
    StepKeepsOutbox(w, step);
    StepKeepsWorkers(w, step);
    StepKeepsQuotas(w, step);
    StepKeepsKeys(w, step);
    StepKeepsEvents(w, step);
  }

  lemma {:induction false} RunsAreOk(worlds: seq<World>, steps: seq<Step>, i: nat)
    requires Run(worlds, steps) && i <= |steps|
    ensures WorldOk(worlds[i])
  {
    if i == 0 {
      EmptyWorldIsOk(worlds[0]);
    } else {
      RunsAreOk(worlds, steps, i - 1);
      StepKeepsOk(worlds[i - 1], steps[i - 1]);
    }
  }

  lemma RowInRun(worlds: seq<World>, steps: seq<Step>, i: nat, j: JobId)
    requires Run(worlds, steps) && i <= |steps| && j in worlds[i].db.jobs
    ensures RowOk(worlds[i].db.jobs[j], worlds[i].maxAttempts)
  {
    RunsAreOk(worlds, steps, i);
  }

  /** What the next step of a run does to one row. */
  lemma ChangeInRun(worlds: seq<World>, steps: seq<Step>, i: nat, j: JobId) returns (change: Change)
    requires Run(worlds, steps) && i < |steps| && j in worlds[i].db.jobs
    ensures RowOk(worlds[i].db.jobs[j], worlds[i].maxAttempts)
    ensures Lawful(worlds[i], j, worlds[i].db.jobs[j], change)
    ensures change == ChangeOf(worlds[i], steps[i], j)
    ensures j in worlds[i + 1].db.jobs && worlds[i + 1].db.jobs[j] == Changed(worlds[i].db.jobs[j], change)
  {
    RunsAreOk(worlds, steps, i);
    StepChanges(worlds[i], steps[i], j);
    change := ChangeOf(worlds[i], steps[i], j);
  }

  lemma RunExtends(worlds: seq<World>, steps: seq<Step>, step: Step)
    requires Run(worlds, steps) && Enabled(worlds[|steps|], step)
    ensures Run(worlds + [After(worlds[|steps|], step)], steps + [step])
  {
    var worlds', steps' := worlds + [After(worlds[|steps|], step)], steps + [step];
    forall i {:trigger steps'[i]} | 0 <= i < |steps'|
      ensures Enabled(worlds'[i], steps'[i]) && worlds'[i + 1] == After(worlds'[i], steps'[i])
    {
      if i < |steps| { assert steps'[i] == steps[i] && worlds'[i] == worlds[i] && worlds'[i + 1] == worlds[i + 1]; }
    }
  }

  // ----- Reachable worlds -----

  ghost predicate RunTo(worlds: seq<World>, steps: seq<Step>, w: World) {
    Run(worlds, steps) && worlds[|steps|] == w
  }

  ghost predicate Reachable(w: World) {
    exists worlds, steps :: RunTo(worlds, steps, w)
  }

  lemma ReachableStep(w: World, step: Step)
    requires Reachable(w) && Enabled(w, step)
    ensures Reachable(After(w, step))
  {
    var worlds, steps :| RunTo(worlds, steps, w);
    RunExtends(worlds, steps, step);
    assert RunTo(worlds + [After(w, step)], steps + [step], After(w, step));
  }

  lemma ReachableIsOk(w: World)
    requires Reachable(w)
    ensures WorldOk(w)
  {
    var worlds, steps :| RunTo(worlds, steps, w);
    RunsAreOk(worlds, steps, |steps|);
  }
}
