/** The scheduler's acknowledgement bindings: which delivered message each leased job holds. */
module Acknowledgements {
  import opened Base
  import opened Store

  datatype AckBinding = AckBinding(guard: Guard, sequence: nat)

  datatype RegistryError = MissingBinding | StaleBinding | JetStreamFailed

  type Bindings = map<JobId, AckBinding>

  function Lookup(bindings: Bindings, job: JobId, guard: Guard): Result<AckBinding, RegistryError> {
    if job !in bindings then Err(MissingBinding)
    else if bindings[job].guard != guard then Err(StaleBinding)
    else Ok(bindings[job])
  }

  // ----- What others do to the registry meanwhile -----

  /** A claim binds under a new lease; a redelivery is rebound unless a higher sequence is bound to
      the same lease already; recovery and completion remove a binding by its lease. */
  datatype RegistryOp =
    | BindClaim(job: JobId, binding: AckBinding)
    | Rebind(job: JobId, binding: AckBinding)
    | RemoveBinding(job: JobId, guard: Guard)

  function Applied(bindings: Bindings, op: RegistryOp): Bindings {
    match op
    case BindClaim(job, binding) => bindings[job := binding]
    case Rebind(job, binding) =>
      var existing := Lookup(bindings, job, binding.guard);
      if existing.Ok? && existing.value.sequence > binding.sequence then bindings else bindings[job := binding]
    case RemoveBinding(job, guard) => if Lookup(bindings, job, guard).Ok? then bindings - {job} else bindings
  }

  function AppliedAll(bindings: Bindings, ops: seq<RegistryOp>): Bindings
    decreases |ops|
  {
    if ops == [] then bindings else AppliedAll(Applied(bindings, ops[0]), ops[1..])
  }

  // ----- Sequences of one lease -----

  /** Throughout the operations the job stays bound to the lease, and no claim reuses that lease. */
  predicate StaysBound(bindings: Bindings, ops: seq<RegistryOp>, job: JobId, guard: Guard)
    decreases |ops|
  {
    && Lookup(bindings, job, guard).Ok?
    && (ops != [] ==>
          !(ops[0].BindClaim? && ops[0].job == job && ops[0].binding.guard == guard)
          && StaysBound(Applied(bindings, ops[0]), ops[1..], job, guard))
  }

  /** While a lease stays bound its sequence never decreases. */
  lemma {:induction false} BoundSequencesGrow(bindings: Bindings, ops: seq<RegistryOp>, job: JobId, guard: Guard)
    requires StaysBound(bindings, ops, job, guard)
    ensures Lookup(AppliedAll(bindings, ops), job, guard).Ok?
    ensures bindings[job].sequence <= AppliedAll(bindings, ops)[job].sequence
    decreases |ops|
  {
    if ops != [] { BoundSequencesGrow(Applied(bindings, ops[0]), ops[1..], job, guard); }
  }

  predicate IsRebind(op: RegistryOp, job: JobId, guard: Guard) {
    op.Rebind? && op.job == job && op.binding.guard == guard
  }

  /** Lease ids are fresh: nothing claims under the lease again. */
  predicate NeverReclaimed(ops: seq<RegistryOp>, job: JobId, guard: Guard) {
    forall i :: 0 <= i < |ops| ==> !(ops[i].BindClaim? && ops[i].job == job && ops[i].binding.guard == guard)
  }

  predicate BoundBelow(bindings: Bindings, job: JobId, guard: Guard, sequence: nat) {
    Lookup(bindings, job, guard).Ok? ==> bindings[job].sequence < sequence
  }

  /** All rebinds of the lease carry lower sequences. */
  predicate RebindsBelow(ops: seq<RegistryOp>, job: JobId, guard: Guard, sequence: nat) {
    forall i :: 0 <= i < |ops| && IsRebind(ops[i], job, guard) ==> ops[i].binding.sequence < sequence
  }

  lemma {:induction false} LowRebindsStayLow(bindings: Bindings, ops: seq<RegistryOp>, job: JobId, guard: Guard, sequence: nat)
    requires BoundBelow(bindings, job, guard, sequence) && RebindsBelow(ops, job, guard, sequence)
    requires NeverReclaimed(ops, job, guard)
    ensures BoundBelow(AppliedAll(bindings, ops), job, guard, sequence)
    decreases |ops|
  {
    if ops != [] { LowRebindsStayLow(Applied(bindings, ops[0]), ops[1..], job, guard, sequence); }
  }

  lemma {:induction false} AppliedInParts(bindings: Bindings, ops: seq<RegistryOp>, n: nat)
    requires n <= |ops|
    ensures AppliedAll(bindings, ops) == AppliedAll(AppliedAll(bindings, ops[..n]), ops[n..])
    decreases n
  {
    if n == 0 {
      assert ops[..0] == [] && ops[0..] == ops;
    } else {
      AppliedInParts(Applied(bindings, ops[0]), ops[1..], n - 1);
      assert ops[..n][1..] == ops[1..][..n - 1] && ops[n..] == ops[1..][n - 1..];
    }
  }

  /** The job was unbound from the lease after `n` operations, and every rebind since is lower. */
  predicate ForgottenAt(bindings: Bindings, ops: seq<RegistryOp>, job: JobId, guard: Guard, sequence: nat, n: nat) {
    && n <= |ops|
    && Lookup(AppliedAll(bindings, ops[..n]), job, guard).Err?
    && RebindsBelow(ops[n..], job, guard, sequence)
  }

  lemma ForgottenLater(bindings: Bindings, ops: seq<RegistryOp>, job: JobId, guard: Guard, sequence: nat, m: nat, n: nat)
    requires m <= |ops| && ForgottenAt(AppliedAll(bindings, ops[..m]), ops[m..], job, guard, sequence, n)
    ensures ForgottenAt(bindings, ops, job, guard, sequence, m + n)
  {
    AppliedInParts(bindings, ops[..m + n], m);
    assert ops[..m + n][..m] == ops[..m] && ops[..m + n][m..] == ops[m..][..n] && ops[m + n..] == ops[m..][n..];
  }

  /** A high rebind leaves the lease bound at least that high. */
  lemma HighRebindBinds(bindings: Bindings, ops: seq<RegistryOp>, job: JobId, guard: Guard, m: nat)
    requires m < |ops| && IsRebind(ops[m], job, guard)
    ensures var after := AppliedAll(bindings, ops[..m + 1]);
      Lookup(after, job, guard).Ok? && after[job].sequence >= ops[m].binding.sequence
  {
    AppliedInParts(bindings, ops[..m + 1], m);
    assert ops[..m + 1][..m] == ops[..m] && ops[..m + 1][m..] == [ops[m]];
    assert AppliedAll(AppliedAll(bindings, ops[..m]), [ops[m]]) == Applied(AppliedAll(bindings, ops[..m]), ops[m]);
  }

  lemma {:induction false} DropsAreForgotten(bindings: Bindings, ops: seq<RegistryOp>, job: JobId, guard: Guard, sequence: nat)
    returns (n: nat)
    requires NeverReclaimed(ops, job, guard)
    requires Lookup(bindings, job, guard).Ok? && bindings[job].sequence >= sequence
    requires Lookup(AppliedAll(bindings, ops), job, guard).Ok? && AppliedAll(bindings, ops)[job].sequence < sequence
    ensures ForgottenAt(bindings, ops, job, guard, sequence, n)
    decreases |ops|
  {
    var next := Applied(bindings, ops[0]);
    assert ops[..1] == [ops[0]] && AppliedAll(bindings, ops[..1]) == next;
    if Lookup(next, job, guard).Ok? {
      n := DropsAreForgotten(next, ops[1..], job, guard, sequence);
      ForgottenLater(bindings, ops, job, guard, sequence, 1, n);
      n := n + 1;
    } else if RebindsBelow(ops[1..], job, guard, sequence) {
      n := 1;
    } else {
      var i :| 0 <= i < |ops[1..]| && IsRebind(ops[1..][i], job, guard) && ops[1..][i].binding.sequence >= sequence;
      HighRebindBinds(bindings, ops, job, guard, i + 1);
      AppliedInParts(bindings, ops, i + 2);
      n := DropsAreForgotten(AppliedAll(bindings, ops[..i + 2]), ops[i + 2..], job, guard, sequence);
      ForgottenLater(bindings, ops, job, guard, sequence, i + 2, n);
      n := n + i + 2;
    }
  }

  /** Exactly when the sequence of a lease is lower in the end than in the beginning: the job was
      unbound from the lease at some point, and every rebind of the lease since then is lower. */
  lemma SequenceDropsExactly(bindings: Bindings, ops: seq<RegistryOp>, job: JobId, guard: Guard)
    requires NeverReclaimed(ops, job, guard)
    requires Lookup(bindings, job, guard).Ok? && Lookup(AppliedAll(bindings, ops), job, guard).Ok?
    ensures AppliedAll(bindings, ops)[job].sequence < bindings[job].sequence <==>
      exists n: nat :: ForgottenAt(bindings, ops, job, guard, bindings[job].sequence, n)
  {
    var sequence := bindings[job].sequence;
    if AppliedAll(bindings, ops)[job].sequence < sequence {
      var n := DropsAreForgotten(bindings, ops, job, guard, sequence);
    }
    if n: nat :| ForgottenAt(bindings, ops, job, guard, sequence, n) {
      AppliedInParts(bindings, ops, n);
      LowRebindsStayLow(AppliedAll(bindings, ops[..n]), ops[n..], job, guard, sequence);
    }
  }

  // ----- Confirming -----

  /** One round of the loop: does the server confirm, and what do others do meanwhile? */
  datatype Round = Round(confirms: bool, others: seq<RegistryOp>)

  datatype Confirmation =
    | Finished(bindings: Bindings, confirmed: seq<nat>)
    | Failed(bindings: Bindings, confirmed: seq<nat>, error: RegistryError)
    | InFlight(bindings: Bindings, confirmed: seq<nat>)

  /** Confirm the binding at hand; when it was replaced in flight, confirm the replacement too. */
  function Confirm(bindings: Bindings, job: JobId, binding: AckBinding, rounds: seq<Round>, confirmed: seq<nat>): Confirmation
    decreases |rounds|
  {
    if rounds == [] then InFlight(bindings, confirmed)
    else if !rounds[0].confirms then Failed(bindings, confirmed, JetStreamFailed)
    else
      var now := AppliedAll(bindings, rounds[0].others);
      var confirmed' := confirmed + [binding.sequence];
      if job !in now then Finished(now, confirmed')
      else if now[job].guard != binding.guard then Failed(now, confirmed', StaleBinding)
      else if now[job].sequence == binding.sequence then Finished(now - {job}, confirmed')
      else Confirm(now, job, now[job], rounds[1..], confirmed')
  }

  function ConfirmAll(bindings: Bindings, job: JobId, guard: Guard, rounds: seq<Round>): Confirmation {
    match Lookup(bindings, job, guard)
    case Err(error) => Failed(bindings, [], error)
    case Ok(binding) => Confirm(bindings, job, binding, rounds, [])
  }

  class AckRegistry {
    var inner: Bindings

    constructor ()
      ensures inner == map[]
    {
      inner := map[];
    }

    method Bind(job: JobId, binding: AckBinding)
      modifies this
      ensures inner == Applied(old(inner), BindClaim(job, binding))
    {
      inner := inner[job := binding];
    }

    method Binding(job: JobId, guard: Guard) returns (r: Result<AckBinding, RegistryError>)
      ensures r == Lookup(inner, job, guard)
    {
      if job !in inner { return Err(MissingBinding); }
      if inner[job].guard != guard { return Err(StaleBinding); }
      return Ok(inner[job]);
    }

    method Take(job: JobId, guard: Guard) returns (r: Result<AckBinding, RegistryError>)
      modifies this
      ensures r == Lookup(old(inner), job, guard) && inner == Applied(old(inner), RemoveBinding(job, guard))
    {
      r := Binding(job, guard);
      if r.Ok? { inner := inner - {job}; }
    }

    /** The binding is gone even if the server does not hear of it. */
    method Nak(job: JobId, guard: Guard, reaches: bool) returns (r: Result<AckBinding, RegistryError>)
      modifies this
      ensures inner == Applied(old(inner), RemoveBinding(job, guard))
      ensures r.Ok? <==> Lookup(old(inner), job, guard).Ok? && reaches
    {
      r := Take(job, guard);
      if r.Ok? && !reaches { r := Err(JetStreamFailed); }
    }

    method ConfirmAck(job: JobId, guard: Guard, rounds: seq<Round>) returns (r: Confirmation)
      modifies this
      ensures r == ConfirmAll(old(inner), job, guard, rounds) && inner == r.bindings
    {
      var found := Binding(job, guard);
      if found.Err? { return Failed(inner, [], found.error); }
      var binding := found.value;
      var confirmed: seq<nat> := [];
      for i := 0 to |rounds|
        invariant Confirm(inner, job, binding, rounds[i..], confirmed) == ConfirmAll(old(inner), job, guard, rounds)
        invariant binding.guard == guard
      {
        assert rounds[i..][1..] == rounds[i + 1..];
        if !rounds[i].confirms { return Failed(inner, confirmed, JetStreamFailed); }
        inner := AppliedAll(inner, rounds[i].others);
        confirmed := confirmed + [binding.sequence];
        if job !in inner { return Finished(inner, confirmed); }
        if inner[job].guard != guard { return Failed(inner, confirmed, StaleBinding); }
        if inner[job].sequence == binding.sequence {
          inner := inner - {job};
          return Finished(inner, confirmed);
        }
        binding := inner[job];
      }
      return InFlight(inner, confirmed);
    }
  }

  /** The registry as the others alone would have left it. */
  function Alone(bindings: Bindings, rounds: seq<Round>, n: nat): Bindings
    requires n <= |rounds|
  {
    if n == 0 then bindings else AppliedAll(Alone(bindings, rounds, n - 1), rounds[n - 1].others)
  }

  /** What confirming itself takes out of the registry: nothing, or the binding of this job and
      lease whose sequence the server has confirmed. */
  ghost predicate RemovesOnlyConfirmed(before: Bindings, r: Confirmation, job: JobId, guard: Guard) {
    || r.bindings == before
    || (r.Finished? && job in before && r.bindings == before - {job}
        && before[job].guard == guard && before[job].sequence in r.confirmed)
  }

  lemma {:induction false} AloneShifts(bindings: Bindings, rounds: seq<Round>, n: nat)
    requires 0 < n <= |rounds|
    ensures Alone(bindings, rounds, n) == Alone(AppliedAll(bindings, rounds[0].others), rounds[1..], n - 1)
  {
    if n > 1 { AloneShifts(bindings, rounds, n - 1); }
  }

  lemma {:induction false} ConfirmRemovesOnlyConfirmed(
    bindings: Bindings, job: JobId, binding: AckBinding, rounds: seq<Round>, confirmed: seq<nat>)
    ensures var r := Confirm(bindings, job, binding, rounds, confirmed);
      && confirmed <= r.confirmed
      && exists n: nat :: n <= |rounds| && RemovesOnlyConfirmed(Alone(bindings, rounds, n), r, job, binding.guard)
    decreases |rounds|
  {
    var r := Confirm(bindings, job, binding, rounds, confirmed);
    if rounds == [] || !rounds[0].confirms {
      assert RemovesOnlyConfirmed(Alone(bindings, rounds, 0), r, job, binding.guard);
    } else {
      var now := AppliedAll(bindings, rounds[0].others);
      AloneShifts(bindings, rounds, 1);
      if job in now && now[job].guard == binding.guard && now[job].sequence != binding.sequence {
        ConfirmRemovesOnlyConfirmed(now, job, now[job], rounds[1..], confirmed + [binding.sequence]);
        var n: nat :| n <= |rounds[1..]| && RemovesOnlyConfirmed(Alone(now, rounds[1..], n), r, job, binding.guard);
        AloneShifts(bindings, rounds, n + 1);
      } else {
        assert RemovesOnlyConfirmed(Alone(bindings, rounds, 1), r, job, binding.guard);
      }
    }
  }

  /** A confirmation that reports success leaves the job unbound, and confirmed at least the
      sequence that was bound when it began. */
  lemma {:induction false} SuccessMeansConfirmed(
    bindings: Bindings, job: JobId, binding: AckBinding, rounds: seq<Round>, confirmed: seq<nat>)
    requires Confirm(bindings, job, binding, rounds, confirmed).Finished?
    ensures var r := Confirm(bindings, job, binding, rounds, confirmed);
      job !in r.bindings && binding.sequence in r.confirmed
    decreases |rounds|
  {
    var now := AppliedAll(bindings, rounds[0].others);
    if job in now && now[job].sequence != binding.sequence {
      ConfirmRemovesOnlyConfirmed(now, job, now[job], rounds[1..], confirmed + [binding.sequence]);
      SuccessMeansConfirmed(now, job, now[job], rounds[1..], confirmed + [binding.sequence]);
      assert (confirmed + [binding.sequence])[|confirmed|] == binding.sequence;
    }
  }

  predicate BindsJob(op: RegistryOp, job: JobId) {
    (op.Rebind? || op.BindClaim?) && op.job == job
  }

  predicate Redriven(round: Round, job: JobId) {
    exists i :: 0 <= i < |round.others| && BindsJob(round.others[i], job)
  }

  function Redrives(rounds: seq<Round>, job: JobId): nat {
    if rounds == [] then 0 else (if Redriven(rounds[0], job) then 1 else 0) + Redrives(rounds[1..], job)
  }

  lemma {:induction false} UnboundJobsKeepBinding(bindings: Bindings, ops: seq<RegistryOp>, job: JobId)
    requires forall i :: 0 <= i < |ops| ==> !BindsJob(ops[i], job)
    ensures job in AppliedAll(bindings, ops) ==> job in bindings && AppliedAll(bindings, ops)[job] == bindings[job]
    decreases |ops|
  {
    if ops != [] {
      assert !BindsJob(ops[0], job);
      UnboundJobsKeepBinding(Applied(bindings, ops[0]), ops[1..], job);
    }
  }

  /** The loop goes round again only for a redrive: one round more than there are redrives is
      enough to end it. */
  lemma {:induction false} ConfirmIsBounded(
    bindings: Bindings, job: JobId, binding: AckBinding, rounds: seq<Round>, confirmed: seq<nat>)
    requires job in bindings && bindings[job] == binding && Redrives(rounds, job) < |rounds|
    ensures !Confirm(bindings, job, binding, rounds, confirmed).InFlight?
    decreases |rounds|
  {
    if rounds[0].confirms {
      var now := AppliedAll(bindings, rounds[0].others);
      if !Redriven(rounds[0], job) {
        UnboundJobsKeepBinding(bindings, rounds[0].others, job);
      } else if job in now && now[job].guard == binding.guard && now[job].sequence != binding.sequence {
        ConfirmIsBounded(now, job, now[job], rounds[1..], confirmed + [binding.sequence]);
      }
    }
  }

  /** Undisturbed and confirmed by the server, one round removes exactly the binding. */
  lemma QuietConfirmationSucceeds(bindings: Bindings, job: JobId, guard: Guard, rounds: seq<Round>)
    requires Lookup(bindings, job, guard).Ok? && rounds != [] && rounds[0].confirms && rounds[0].others == []
    ensures ConfirmAll(bindings, job, guard, rounds) == Finished(bindings - {job}, [bindings[job].sequence])
  {
    assert AppliedAll(bindings, []) == bindings;
  }
}
