/** Runs and histories that reach the failing side of a condition proved elsewhere: each shows that
    the failure is one the system can come to. */
module Witnesses {
  import opened Base
  import opened Lifecycle
  import opened DeadLetters
  import opened Store
  import opened Runs
  import opened Invariant
  import opened Finalizer

  const PROJECT: ProjectId := "proj_a"
  const WORKER: WorkerId := "worker_a"
  const JOB: JobId := "job_a"
  const LEASE: LeaseId := "lease_a"
  const KEY: string := "key"
  const SPEC: string := "spec"

  // ----- A first job is claimed -----

  /** One project with room for one job, and one attempt per job. */
  function EmptyStart(): World {
    World(Db(map[PROJECT := Quota(1, 1)], map[], map[], map[], map[], []), map[], map[], 1)
  }

  const REGISTER := DoRegister(WORKER, 1, true, 0)
  const REQUEST := CreateRequest(PROJECT, KEY, SPEC, true)
  const CREATE := DoCreate(REQUEST, JOB)
  const CLAIM := ClaimRequest(JOB, WORKER, LEASE, 10, 0, 1, true)
  const GUARD := Guard(WORKER, LEASE)

  /** The columns of the only job and worker that later steps look at. */
  predicate Stands(w: World, row: JobRow, active: nat) {
    && w.maxAttempts == 1 && w.db.projects == map[PROJECT := Quota(1, 1)]
    && w.db.jobs == map[JOB := row] && w.db.workers == map[WORKER := WorkerRow(Online, 1, active, 0)]
  }

  function ClaimedJob(): JobRow {
    ClaimedRow(NewRow(REQUEST), CLAIM)
  }

  lemma RegisterHappens() returns (w: World)
    ensures w == After(EmptyStart(), REGISTER) && Reachable(EmptyStart()) && Reachable(w) && Enabled(EmptyStart(), REGISTER)
    ensures w.db == EmptyStart().db.(workers := map[WORKER := WorkerRow(Online, 1, 0, 0)])
    ensures w.issued == map[] && w.seen == map[] && w.maxAttempts == 1
  {
    w := After(EmptyStart(), REGISTER);
    assert RunTo([EmptyStart()], [], EmptyStart());
    ReachableStep(EmptyStart(), REGISTER);
  }

  lemma KeyIsValid()
    ensures ValidIdempotencyKey(KEY)
  {}

  lemma CreateHappens(w: World)
    requires w.db == EmptyStart().db.(workers := map[WORKER := WorkerRow(Online, 1, 0, 0)])
    requires w.issued == map[] && w.seen == map[] && w.maxAttempts == 1
    ensures Enabled(w, CREATE) && Stands(After(w, CREATE), NewRow(REQUEST), 0)
    ensures After(w, CREATE).issued == map[] && After(w, CREATE).seen == map[]
    ensures After(w, CREATE).db.outbox == map[QueuedKey(JOB) := OutboxRow(None, None, false)]
  {
    KeyIsValid();
    assert Rows(w.db.jobs, IsOutstanding(PROJECT)) == {};
  }

  lemma ClaimHappens(w: World)
    requires Stands(w, NewRow(REQUEST), 0) && w.issued == map[]
    ensures Enabled(w, DoClaim(CLAIM)) && ClaimRefusal(w.db, CLAIM).None?
    ensures Stands(After(w, DoClaim(CLAIM)), ClaimedJob(), 1)
    ensures After(w, DoClaim(CLAIM)).db.outbox == w.db.outbox && After(w, DoClaim(CLAIM)).seen == w.seen
  {
    assert Rows(w.db.jobs, IsRunning(PROJECT)) == {};
  }

  lemma JobIsClaimed() returns (w: World)
    ensures Reachable(w) && Stands(w, ClaimedJob(), 1)
  {
    var w1 := RegisterHappens();
    CreateHappens(w1);
    ReachableStep(w1, CREATE);
    var w2 := After(w1, CREATE);
    ClaimHappens(w2);
    ReachableStep(w2, DoClaim(CLAIM));
    w := After(w2, DoClaim(CLAIM));
  }

  // ----- The finalizer's budget -----

  const RESULT := JobResult(JOB, WORKER, LEASE, JobOutcome.InfraFailed, false, false, true, true)

  lemma ResultIsAccepted(w: World)
    requires Stands(w, ClaimedJob(), 1)
    ensures Stands(After(w, DoReport(RESULT, 1)), ReportedRow(ClaimedJob(), RESULT), 1)
  {}

  /** The failing side of the finalizer's budget is reached: a worker that reports an infrastructure
      failure right after its claim can find all six passes used up under a live lease. */
  lemma BudgetDoesRunOut() returns (w: World, slots: seq<Slot>)
    ensures Reachable(w) && Holding(w, RESULT, Claimed, 1) && Consistent(RESULT)
    ensures |slots| == PASSES && Exhausts(w, RESULT, Claimed, slots)
  {
    var w0 := JobIsClaimed();
    ResultIsAccepted(w0);
    ReachableStep(w0, DoReport(RESULT, 1));
    w := After(w0, DoReport(RESULT, 1));
    BudgetIsExact(w, RESULT, Claimed, 1);
    slots :| |slots| == PASSES && Exhausts(w, RESULT, Claimed, slots);
  }

  // ----- The cleanup constraint -----

  const HASTY := MoveRequest(JOB, Claimed, ProvisioningRuntime, Evidence(None, false, true), Some(GUARD), 1)

  /** The failing side of the cleanup constraint is reached: a fenced transition that the contract
      allows is rejected because its evidence claims cleanup and nothing has finalized artifacts. */
  lemma CleanupConstraintDoesReject() returns (w: World)
    ensures Reachable(w) && ValidateTransition(HASTY.from, HASTY.to, HASTY.evidence).Allowed?
    ensures JOB in w.db.jobs && GuardHolds(w.db.jobs[JOB], GUARD, HASTY.now)
    ensures MoveRefusal(w.db, HASTY) == Some(CheckViolation)
  {
    w := JobIsClaimed();
  }
}
