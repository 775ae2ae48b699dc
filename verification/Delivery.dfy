/** What to do with a queue message, given the database row of the job that it names. */
module Delivery {
  import opened Base
  import opened Lifecycle
  import opened Store
  import opened Runs
  import opened Invariant

  /** A queue payload: undecodable, or a JobQueued record. */
  datatype Body = Malformed | Names(job: JobId, project: ProjectId, spec: string)

  /** The record that the row itself would produce. */
  function Canonical(job: JobId, row: JobRow): Body {
    Names(job, row.project, row.spec)
  }

  datatype Decision =
    | AckTerminal
    | FinalizeCancellation
    | Buffer
    | Rebind(guard: Guard)
    | HoldForReconciliation
    | DeadLetterInconsistent

  function LeaseOf(row: JobRow): Option<Guard> {
    if row.worker.Some? && row.lease.Some? then Some(Guard(row.worker.value, row.lease.value)) else None
  }

  function Classify(body: Body, job: JobId, row: JobRow, now: Time): Decision {
    if row.state.Terminal() then AckTerminal
    else if row.pending == Some(JobOutcome.Cancelled) && LeaseOf(row).None? && row.attempts == 0 then
      FinalizeCancellation
    else if body != Canonical(job, row) then DeadLetterInconsistent
    else if LeaseOf(row).Some? then
      if row.expires.Some? && row.expires.value > now then Rebind(LeaseOf(row).value) else HoldForReconciliation
    else if row.state.Queued? && row.pending.None? && row.expires.None? then Buffer
    else HoldForReconciliation
  }

  /** In every reachable state each decision is taken in exactly the situation it is meant for:
      disposal only for a job that is over, finalizing only for one cancelled before any attempt,
      buffering for exactly the jobs that a claim would find queued, rebinding for exactly the live
      leases.  What is held is either under an expired lease or already on the recovery path. */
  lemma DecisionsFit(worlds: seq<World>, steps: seq<Step>, i: nat, job: JobId, body: Body, now: Time)
    requires Run(worlds, steps) && i <= |steps| && job in worlds[i].db.jobs
    ensures var row, canonical := worlds[i].db.jobs[job], body == Canonical(job, worlds[i].db.jobs[job]);
      match Classify(body, job, row, now)
      case AckTerminal => row.state.Terminal() && Settled(row)
      case FinalizeCancellation => Finalizable(row) && row.pending == Some(JobOutcome.Cancelled) && row.attempts == 0
      case Buffer => canonical && row.state.Queued?
      case Rebind(guard) => canonical && GuardHolds(row, guard, now) && !row.state.Terminal()
      case HoldForReconciliation =>
        canonical && (if row.lease.Some? then row.expires.Some? && row.expires.value <= now else Finalizable(row) && row.attempts > 0)
      case DeadLetterInconsistent => !canonical && !row.state.Terminal()
    ensures var row := worlds[i].db.jobs[job];
      body == Canonical(job, row) && row.state.Queued? ==> Classify(body, job, row, now) == Buffer
    ensures var row := worlds[i].db.jobs[job];
      body == Canonical(job, row) && row.lease.Some? && row.expires.Some? && row.expires.value > now ==>
        Classify(body, job, row, now).Rebind? && LeaseOf(row) == Some(Classify(body, job, row, now).guard)
  {
    RowInRun(worlds, steps, i, job);
    ClaimedOnceIfRecovered(worlds, steps, i, job);
  }

  /** A settled job whose outcome is InfraFailed has used its attempts. */
  lemma ClaimedOnceIfRecovered(worlds: seq<World>, steps: seq<Step>, i: nat, job: JobId)
    requires Run(worlds, steps) && i <= |steps| && job in worlds[i].db.jobs
    ensures worlds[i].maxAttempts > 0
    ensures var row := worlds[i].db.jobs[job];
      Settled(row) && !row.state.Terminal() && row.pending != Some(JobOutcome.Cancelled) ==> row.attempts > 0
  {
    RunsAreOk(worlds, steps, i);
  }
}
