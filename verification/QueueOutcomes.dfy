/** What each handler of the work queue brings about when nothing disturbs it: its effects are
    performed one after the other, to the end of its plan. */
module QueueOutcomes {
  import opened Base
  import opened Lifecycle
  import opened DeadLetters
  import opened Store
  import opened Runs
  import opened Invariant
  import opened Delivery
  import opened QueueProtocol
  import opened QueueSafety
  import opened QueueProgress
  import Ack = Acknowledgements

  /** The system after the next `n` effects of a task, or all that are left. */
  ghost function Performed(sys: Sys, task: nat, now: Time, n: nat): Sys
    decreases n
  {
    if n == 0 || !HasHead(sys, task) then sys else Performed(Next(sys, Perform(task, now)), task, now, n - 1)
  }

  /** A plan is at its end after at most `k` effects, and has turned `sys` into `sys'`. */
  ghost predicate Ends(sys: Sys, plan: Plan, sys': Sys, task: nat, now: Time, k: nat) {
    forall n: nat :: n >= k ==> Performed(WithPlan(sys, task, plan), task, now, n) == WithPlan(sys', task, [])
  }

  lemma NothingIsLeft(sys: Sys, task: nat, now: Time)
    ensures Ends(sys, [], sys, task, now, 0)
  {}

  lemma EndsWithin(sys: Sys, plan: Plan, sys': Sys, task: nat, now: Time, k: nat, m: nat)
    requires Ends(sys, plan, sys', task, now, k) && k <= m
    ensures Ends(sys, plan, sys', task, now, m)
  {}

  /** One effect, and then a plan that ends. */
  lemma StepEnds(sys: Sys, plan: Plan, sys1: Sys, plan1: Plan, sys': Sys, task: nat, now: Time, m: nat)
    requires plan != []
    requires Execute(WithPlan(sys, task, plan), task, plan[0], plan[1..], now) == WithPlan(WithPlan(sys1, task, plan), task, plan1)
    requires Ends(sys1, plan1, sys', task, now, m)
    ensures Ends(sys, plan, sys', task, now, m + 1)
  {
    ReplannedTwice(sys1, task, plan, plan1);
    forall n: nat | n >= m + 1
      ensures Performed(WithPlan(sys, task, plan), task, now, n) == WithPlan(sys', task, [])
    {
      assert Performed(WithPlan(sys, task, plan), task, now, n) == Performed(WithPlan(sys1, task, plan1), task, now, n - 1);
    }
  }

  lemma LastStepEnds(sys: Sys, plan: Plan, sys': Sys, task: nat, now: Time)
    requires plan != []
    requires Execute(WithPlan(sys, task, plan), task, plan[0], plan[1..], now) == WithPlan(WithPlan(sys', task, plan), task, [])
    ensures Ends(sys, plan, sys', task, now, 1)
  {
    NothingIsLeft(sys', task, now);
    StepEnds(sys, plan, sys', [], sys', task, now, 0);
  }

  // ----- Single effects -----

  lemma RetireFirst(sys: Sys, sequence: nat, plan: Plan, rest: Plan, sys': Sys, task: nat, now: Time, m: nat)
    requires plan == [Retire(sequence)] + rest && Ends(Retired(sys, sequence), rest, sys', task, now, m)
    ensures Ends(sys, plan, sys', task, now, m + 1)
  {
    assert plan[1..] == rest;
    StepEnds(sys, plan, Retired(sys, sequence), rest, sys', task, now, m);
  }

  lemma RetireLast(sys: Sys, sequence: nat, task: nat, now: Time)
    ensures Ends(sys, [Retire(sequence)], Retired(sys, sequence), task, now, 1)
  {
    LastStepEnds(sys, [Retire(sequence)], Retired(sys, sequence), task, now);
  }

  lemma BindLast(sys: Sys, job: JobId, binding: Ack.AckBinding, task: nat, now: Time)
    ensures Ends(sys, [Bind(job, binding)], sys.(bindings := sys.bindings[job := binding]), task, now, 1)
  {
    LastStepEnds(sys, [Bind(job, binding)], sys.(bindings := sys.bindings[job := binding]), task, now);
  }

  lemma RequeueLast(sys: Sys, job: JobId, pending: Pending, task: nat, now: Time)
    requires job !in sys.buffer && |sys.buffer| < sys.capacity
    ensures Ends(sys, [Requeue(job, pending)], sys.(buffer := sys.buffer[job := pending]), task, now, 1)
  {
    LastStepEnds(sys, [Requeue(job, pending)], sys.(buffer := sys.buffer[job := pending]), task, now);
  }

  lemma UnbindLast(sys: Sys, job: JobId, guard: Guard, sequence: nat, cause: AckCause, task: nat, now: Time)
    requires Bound(sys, job, guard) == Some(Ack.AckBinding(guard, sequence))
    ensures Ends(sys, [Unbind(job, guard, sequence, cause)], sys.(bindings := sys.bindings - {job}), task, now, 1)
  {
    LastStepEnds(sys, [Unbind(job, guard, sequence, cause)], sys.(bindings := sys.bindings - {job}), task, now);
  }

  // ----- Dispatching -----

  /** A claim that succeeds binds the delivery that was dispatched to the lease it got. */
  lemma ClaimBinds(sys: Sys, task: nat, claim: ClaimRequest, now: Time, n: nat)
    requires n >= 1
    requires CanMove(sys, ClaimFor(task, claim)) && Claim(sys.world.db, claim).1.Ok?
    ensures var guard, sys' := Guard(claim.worker, claim.lease), Performed(Next(sys, ClaimFor(task, claim)), task, now, n);
      && claim.job in sys'.bindings
      && sys'.bindings[claim.job] == Ack.AckBinding(guard, sys.tasks[task][0].pending.sequence)
      && claim.job in sys'.world.db.jobs && LeaseOf(sys'.world.db.jobs[claim.job]) == Some(guard)
  {
    var binding := Ack.AckBinding(Guard(claim.worker, claim.lease), sys.tasks[task][0].pending.sequence);
    var claimed := sys.(world := After(sys.world, DoClaim(claim)));
    assert Next(sys, ClaimFor(task, claim)) == WithPlan(claimed, task, [Bind(claim.job, binding)]);
    BindLast(claimed, claim.job, binding, task, now);
  }

  /** A claim that is refused leaves the entry to be tried with another worker. */
  lemma RefusedClaimWaits(sys: Sys, task: nat, claim: ClaimRequest)
    requires CanMove(sys, ClaimFor(task, claim)) && Claim(sys.world.db, claim).1.Err?
    ensures Next(sys, ClaimFor(task, claim)).world.db == sys.world.db
    ensures Next(sys, ClaimFor(task, claim)) == sys.(world := Next(sys, ClaimFor(task, claim)).world)
  {}

  /** When no worker is left to try, the entry is buffered again with its delivery, if there is a place. */
  lemma GivingUpRequeues(sys: Sys, task: nat, job: JobId, pending: Pending, now: Time)
    requires job !in sys.buffer && |sys.buffer| < sys.capacity
    ensures Ends(sys, [Dispatch(job, pending)], sys.(buffer := sys.buffer[job := pending]), task, now, 2)
  {
    RequeueLast(sys, job, pending, task, now);
    StepEnds(sys, [Dispatch(job, pending)], sys, [Requeue(job, pending)], sys.(buffer := sys.buffer[job := pending]), task, now, 1);
  }

  // ----- Acknowledging -----

  function RetiredAndFree(sys: Sys, job: JobId, sequence: nat): Sys
    requires sequence < |sys.stream|
  {
    sys.(stream := sys.stream[sequence := sys.stream[sequence].(retired := true)], bindings := sys.bindings - {job})
  }

  lemma ConfirmEnds(sys: Sys, job: JobId, guard: Guard, sequence: nat, cause: AckCause, task: nat, now: Time)
    requires Bound(sys, job, guard) == Some(Ack.AckBinding(guard, sequence)) && sequence < |sys.stream|
    ensures Ends(sys, [ConfirmAck(job, guard, cause)], RetiredAndFree(sys, job, sequence), task, now, 3)
  {
    var sys', unbind := RetiredAndFree(sys, job, sequence), [Unbind(job, guard, sequence, cause)];
    assert ConfirmPlan(sys, job, guard, cause) == [Retire(sequence)] + unbind;
    UnbindLast(Retired(sys, sequence), job, guard, sequence, cause, task, now);
    RetireFirst(sys, sequence, [Retire(sequence)] + unbind, unbind, sys', task, now, 1);
    StepEnds(sys, [ConfirmAck(job, guard, cause)], sys, [Retire(sequence)] + unbind, sys', task, now, 2);
  }

  /** When the worker has ended the job of a bound delivery, its acknowledgement retires exactly that
      message and drops exactly that binding. */
  lemma EndRetiresBound(sys: Sys, task: nat, job: JobId, guard: Guard, sequence: nat, now: Time, n: nat)
    requires n >= 3
    requires CanMove(sys, WorkerFinished(task, job, guard)) && sequence < |sys.stream|
    requires Ack.Lookup(sys.bindings, job, guard) == Ok(Ack.AckBinding(guard, sequence))
    ensures Performed(Next(sys, WorkerFinished(task, job, guard)), task, now, n) ==
      WithPlan(RetiredAndFree(sys, job, sequence), task, [])
  {
    ConfirmEnds(sys, job, guard, sequence, FromWorker, task, now);
  }

  /** So does the reconciler's, for a cancelled job. */
  lemma CancellationRetiresBound(sys: Sys, task: nat, job: JobId, guard: Guard, sequence: nat, now: Time, n: nat)
    requires n >= 3
    requires CanMove(sys, CancellationFinalized(task, job, guard)) && sequence < |sys.stream|
    requires Ack.Lookup(sys.bindings, job, guard) == Ok(Ack.AckBinding(guard, sequence))
    ensures Performed(Next(sys, CancellationFinalized(task, job, guard)), task, now, n) ==
      WithPlan(RetiredAndFree(sys, job, sequence), task, [])
  {
    ConfirmEnds(sys, job, guard, sequence, FromReconciler, task, now);
  }

  /** And the reconciler's for an exhausted job whose dead letter is published. */
  lemma ExhaustionRetiresBound(sys: Sys, task: nat, job: JobId, guard: Guard, sequence: nat, now: Time, n: nat)
    requires n >= 2
    requires CanMove(sys, ExhaustionPublished(task, job, guard)) && sequence < |sys.stream|
    requires Ack.Lookup(sys.bindings, job, guard) == Ok(Ack.AckBinding(guard, sequence))
    ensures Performed(Next(sys, ExhaustionPublished(task, job, guard)), task, now, n) ==
      WithPlan(RetiredAndFree(sys, job, sequence), task, [])
  {
    TakeEnds(sys, job, guard, sequence, task, now);
  }

  lemma TakeEnds(sys: Sys, job: JobId, guard: Guard, sequence: nat, task: nat, now: Time)
    requires Bound(sys, job, guard) == Some(Ack.AckBinding(guard, sequence)) && sequence < |sys.stream|
    ensures Ends(sys, [TakeBound(job, guard)], RetiredAndFree(sys, job, sequence), task, now, 2)
  {
    var free := sys.(bindings := sys.bindings - {job});
    RetireLast(free, sequence, task, now);
    StepEnds(sys, [TakeBound(job, guard)], free, [Retire(sequence)], RetiredAndFree(sys, job, sequence), task, now, 1);
  }

  // ----- Redeliveries -----

  function Higher(a: nat, b: nat): nat {
    if a < b then b else a
  }

  lemma ReplaceLast(sys: Sys, job: JobId, sequence: nat, task: nat, now: Time)
    requires job in sys.buffer
    ensures Ends(sys, [Replace(job, sequence)],
                 sys.(buffer := sys.buffer[job := sys.buffer[job].(sequence := sequence)]), task, now, 1)
  {
    LastStepEnds(sys, [Replace(job, sequence)],
                 sys.(buffer := sys.buffer[job := sys.buffer[job].(sequence := sequence)]), task, now);
  }

  /** A higher delivery of a buffered job takes the place of the lower, which is acknowledged. */
  lemma HigherOfferReplaces(sys: Sys, job: JobId, pending: Pending, task: nat, now: Time)
    requires job in sys.buffer && sys.buffer[job].sequence < pending.sequence
    ensures Ends(sys, [Offer(job, pending)],
                 Retired(sys, sys.buffer[job].sequence).(
                   buffer := sys.buffer[job := sys.buffer[job].(sequence := pending.sequence)]), task, now, 3)
  {
    var held, replace := sys.buffer[job].sequence, [Replace(job, pending.sequence)];
    var sys' := Retired(sys, held).(buffer := sys.buffer[job := sys.buffer[job].(sequence := pending.sequence)]);
    ReplaceLast(Retired(sys, held), job, pending.sequence, task, now);
    assert [Retire(held), Replace(job, pending.sequence)] == [Retire(held)] + replace;
    RetireFirst(sys, held, [Retire(held), Replace(job, pending.sequence)], replace, sys', task, now, 1);
    StepEnds(sys, [Offer(job, pending)], sys, [Retire(held), Replace(job, pending.sequence)], sys', task, now, 2);
  }

  /** A lower one is acknowledged itself. */
  lemma LowerOfferRetires(sys: Sys, job: JobId, pending: Pending, task: nat, now: Time)
    requires job in sys.buffer && pending.sequence < sys.buffer[job].sequence
    ensures Ends(sys, [Offer(job, pending)], Retired(sys, pending.sequence), task, now, 2)
  {
    RetireLast(sys, pending.sequence, task, now);
    StepEnds(sys, [Offer(job, pending)], sys, [Retire(pending.sequence)], Retired(sys, pending.sequence), task, now, 1);
  }

  /** The same one again changes nothing. */
  lemma SameOfferIsIgnored(sys: Sys, job: JobId, pending: Pending, task: nat, now: Time)
    requires job in sys.buffer && pending.sequence == sys.buffer[job].sequence
    ensures Ends(sys, [Offer(job, pending)], sys, task, now, 1)
  {
    LastStepEnds(sys, [Offer(job, pending)], sys, task, now);
  }

  lemma FreshOfferIsPushed(sys: Sys, job: JobId, pending: Pending, task: nat, now: Time)
    requires job !in sys.buffer && |sys.buffer| < sys.capacity
    ensures Ends(sys, [Offer(job, pending)], sys.(buffer := sys.buffer[job := pending]), task, now, 1)
  {
    LastStepEnds(sys, [Offer(job, pending)], sys.(buffer := sys.buffer[job := pending]), task, now);
  }

  /** A delivery of a job that is buffered already leaves the buffer on the higher of the two
      sequences, and acknowledges the lower. */
  lemma OfferKeepsHigher(sys: Sys, job: JobId, pending: Pending, task: nat, now: Time) returns (sys': Sys)
    requires job in sys.buffer
    ensures Ends(sys, [Offer(job, pending)], sys', task, now, 3)
    ensures var held, offered := sys.buffer[job].sequence, pending.sequence;
      && job in sys'.buffer && sys'.buffer[job].sequence == Higher(held, offered)
      && sys'.stream == if held == offered then sys.stream else Retired(sys, if held < offered then held else offered).stream
  {
    if sys.buffer[job].sequence < pending.sequence {
      sys' := Retired(sys, sys.buffer[job].sequence).(buffer := sys.buffer[job := sys.buffer[job].(sequence := pending.sequence)]);
      HigherOfferReplaces(sys, job, pending, task, now);
    } else if pending.sequence < sys.buffer[job].sequence {
      sys' := Retired(sys, pending.sequence);
      LowerOfferRetires(sys, job, pending, task, now);
      EndsWithin(sys, [Offer(job, pending)], sys', task, now, 2, 3);
    } else {
      sys' := sys;
      SameOfferIsIgnored(sys, job, pending, task, now);
      EndsWithin(sys, [Offer(job, pending)], sys', task, now, 1, 3);
    }
  }

  lemma RebindEnds(sys: Sys, job: JobId, guard: Guard, sequence: nat, plan: Plan, sys': Sys, task: nat, now: Time, m: nat)
    requires plan == BindOrAckPlan(sys, job, guard, sequence) && Ends(sys, plan, sys', task, now, m)
    ensures Ends(sys, [BindOrAck(job, guard, sequence)], sys', task, now, m + 1)
  {
    StepEnds(sys, [BindOrAck(job, guard, sequence)], sys, plan, sys', task, now, m);
  }

  /** A delivery of a leased job is bound to the lease when nothing or the same sequence is. */
  lemma DeliveryIsRebound(sys: Sys, job: JobId, guard: Guard, sequence: nat, task: nat, now: Time)
    requires Ack.Lookup(sys.bindings, job, guard).Ok? ==> sys.bindings[job].sequence == sequence
    ensures Ends(sys, [BindOrAck(job, guard, sequence)],
                 sys.(bindings := sys.bindings[job := Ack.AckBinding(guard, sequence)]), task, now, 2)
  {
    var binding := Ack.AckBinding(guard, sequence);
    BindLast(sys, job, binding, task, now);
    RebindEnds(sys, job, guard, sequence, [Bind(job, binding)], sys.(bindings := sys.bindings[job := binding]), task, now, 1);
  }

  /** A higher one is bound in place of the lower, which is acknowledged. */
  lemma HigherIsRebound(sys: Sys, job: JobId, guard: Guard, sequence: nat, task: nat, now: Time)
    requires Ack.Lookup(sys.bindings, job, guard).Ok? && sys.bindings[job].sequence < sequence
    ensures Ends(sys, [BindOrAck(job, guard, sequence)],
                 Retired(sys, sys.bindings[job].sequence).(
                   bindings := sys.bindings[job := Ack.AckBinding(guard, sequence)]), task, now, 3)
  {
    var existing, bind := sys.bindings[job].sequence, [Bind(job, Ack.AckBinding(guard, sequence))];
    var sys' := Retired(sys, existing).(bindings := sys.bindings[job := Ack.AckBinding(guard, sequence)]);
    BindLast(Retired(sys, existing), job, Ack.AckBinding(guard, sequence), task, now);
    RetireFirst(sys, existing, [Retire(existing)] + bind, bind, sys', task, now, 1);
    RebindEnds(sys, job, guard, sequence, [Retire(existing)] + bind, sys', task, now, 2);
  }

  /** And a lower one is acknowledged itself. */
  lemma LowerIsAcknowledged(sys: Sys, job: JobId, guard: Guard, sequence: nat, task: nat, now: Time)
    requires Ack.Lookup(sys.bindings, job, guard).Ok? && sequence < sys.bindings[job].sequence
    ensures Ends(sys, [BindOrAck(job, guard, sequence)], Retired(sys, sequence), task, now, 2)
  {
    RetireLast(sys, sequence, task, now);
    RebindEnds(sys, job, guard, sequence, [Retire(sequence)], Retired(sys, sequence), task, now, 1);
  }

  function BoundHigher(sys: Sys, job: JobId, guard: Guard, sequence: nat): Ack.AckBinding {
    var bound := Ack.Lookup(sys.bindings, job, guard);
    Ack.AckBinding(guard, if bound.Ok? then Higher(bound.value.sequence, sequence) else sequence)
  }

  /** So the lease ends up bound to the higher sequence, and the lower is acknowledged. */
  lemma RebindKeepsHigher(sys: Sys, job: JobId, guard: Guard, sequence: nat, task: nat, now: Time) returns (sys': Sys)
    ensures Ends(sys, [BindOrAck(job, guard, sequence)], sys', task, now, 3)
    ensures Ack.Lookup(sys'.bindings, job, guard) == Ok(BoundHigher(sys, job, guard, sequence))
    ensures var bound := Ack.Lookup(sys.bindings, job, guard);
      sys'.stream == if bound.Err? || bound.value.sequence == sequence then sys.stream
                     else Retired(sys, if bound.value.sequence < sequence then bound.value.sequence else sequence).stream
  {
    var bound, rebind := Ack.Lookup(sys.bindings, job, guard), [BindOrAck(job, guard, sequence)];
    if bound.Ok? && bound.value.sequence < sequence {
      sys' := Retired(sys, sys.bindings[job].sequence).(bindings := sys.bindings[job := Ack.AckBinding(guard, sequence)]);
      HigherIsRebound(sys, job, guard, sequence, task, now);
    } else if bound.Ok? && bound.value.sequence > sequence {
      sys' := Retired(sys, sequence);
      LowerIsAcknowledged(sys, job, guard, sequence, task, now);
      EndsWithin(sys, rebind, sys', task, now, 2, 3);
    } else {
      sys' := sys.(bindings := sys.bindings[job := Ack.AckBinding(guard, sequence)]);
      DeliveryIsRebound(sys, job, guard, sequence, task, now);
      EndsWithin(sys, rebind, sys', task, now, 2, 3);
    }
  }

  // ----- Dead letters -----

  lemma AwaitEnds(sys: Sys, sequence: nat, key: OutboxKey, task: nat, now: Time)
    ensures Ends(sys, [AwaitPublished(key), Retire(sequence)],
                 if IsPublished(sys.world, key) then Retired(sys, sequence) else sys, task, now, 2)
  {
    var plan := [AwaitPublished(key), Retire(sequence)];
    assert plan[1..] == [Retire(sequence)];
    if IsPublished(sys.world, key) {
      RetireLast(sys, sequence, task, now);
      StepEnds(sys, plan, sys, [Retire(sequence)], Retired(sys, sequence), task, now, 1);
    } else {
      LastStepEnds(sys, plan, sys, task, now);
      EndsWithin(sys, plan, sys, task, now, 1, 2);
    }
  }

  lemma LetterIsIn(w: World, letter: DeadLetter)
    requires Validate(letter).None?
    ensures Identity(letter) in After(w, DoEnqueue(letter)).db.outbox
    ensures IsPublished(After(w, DoEnqueue(letter)), Identity(letter)) <==> IsPublished(w, Identity(letter))
  {}

  /** The dead letter is in the outbox, and the message is retired exactly if the letter is published. */
  lemma LetterPlanEnds(sys: Sys, sequence: nat, letter: DeadLetter, task: nat, now: Time) returns (sys': Sys)
    requires Validate(letter).None?
    ensures Ends(sys, DeadLetterPlan(sequence, letter), sys', task, now, 3)
    ensures Identity(letter) in sys'.world.db.outbox
    ensures sys'.stream == if IsPublished(sys.world, Identity(letter)) then Retired(sys, sequence).stream else sys.stream
    ensures sys'.bindings == sys.bindings && sys'.buffer == sys.buffer
  {
    var key, plan := Identity(letter), DeadLetterPlan(sequence, letter);
    var sys1 := sys.(world := After(sys.world, DoEnqueue(letter)));
    LetterIsIn(sys.world, letter);
    sys' := if IsPublished(sys1.world, key) then Retired(sys1, sequence) else sys1;
    AwaitEnds(sys1, sequence, key, task, now);
    assert plan[1..] == [AwaitPublished(key), Retire(sequence)];
    StepEnds(sys, plan, sys1, plan[1..], sys', task, now, 2);
  }

  // ----- Deliveries of messages that name no job -----

  /** What is due for a message: its dead letter is there, and it goes once that is published. */
  predicate Buried(sys: Sys, sequence: nat, key: OutboxKey, sys': Sys) {
    && key in sys'.world.db.outbox
    && sys'.stream == if IsPublished(sys.world, key) then Retired(sys, sequence).stream else sys.stream
  }

  lemma MalformedIsBuried(sys: Sys, task: nat, sequence: nat, now: Time) returns (sys': Sys)
    requires sequence < |sys.stream| && sys.stream[sequence].body.Malformed?
    ensures Ends(sys, [Inspect(sequence)], sys', task, now, 4) && Buried(sys, sequence, MalformedKey(sequence + 1), sys')
  {
    var letter := LetterFor(sequence, None, 1, MalformedMessage);
    sys' := LetterPlanEnds(sys, sequence, letter, task, now);
    StepEnds(sys, [Inspect(sequence)], sys, DeadLetterPlan(sequence, letter), sys', task, now, 3);
  }

  lemma StrangerIsBuried(sys: Sys, task: nat, sequence: nat, now: Time) returns (sys': Sys)
    requires sequence < |sys.stream| && sys.stream[sequence].body.Names? && sys.stream[sequence].body.job !in sys.world.db.jobs
    ensures Ends(sys, [Inspect(sequence)], sys', task, now, 4) && Buried(sys, sequence, InconsistentKey(sequence + 1), sys')
  {
    var letter := LetterFor(sequence, Some(sys.stream[sequence].body.job), 1, CanonicalJobInconsistent);
    sys' := LetterPlanEnds(sys, sequence, letter, task, now);
    StepEnds(sys, [Inspect(sequence)], sys, DeadLetterPlan(sequence, letter), sys', task, now, 3);
  }

  // ----- Looking at the row of the job -----

  /** The system after a handler has looked at the row of a job. */
  function Looked(sys: Sys, job: JobId): Sys {
    sys.(world := After(sys.world, DoObserve(job)))
  }

  lemma DeliveryEnds(sys: Sys, sequence: nat, job: JobId, plan: Plan, sys': Sys, task: nat, now: Time, m: nat)
    requires NamesJob(sys.stream, sequence, job) && job in sys.world.db.jobs
    requires plan == AcceptPlan(Pending(sys.stream[sequence].body, sequence), job, sys.world.db.jobs[job], now)
    requires Ends(Looked(sys, job), plan, sys', task, now, m)
    ensures Ends(sys, [Inspect(sequence)], sys', task, now, m + 1)
  {
    StepEnds(sys, [Inspect(sequence)], Looked(sys, job), plan, sys', task, now, m);
  }

  lemma ReviewEnds(sys: Sys, job: JobId, pending: Pending, plan: Plan, sys': Sys, task: nat, now: Time, m: nat)
    requires job in sys.world.db.jobs && plan == DispatchPlan(pending, job, sys.world.db.jobs[job], now)
    requires Ends(Looked(sys, job), plan, sys', task, now, m)
    ensures Ends(sys, [Review(job, pending)], sys', task, now, m + 1)
  {
    StepEnds(sys, [Review(job, pending)], Looked(sys, job), plan, sys', task, now, m);
  }

  lemma AdvisedEnds(sys: Sys, sequence: nat, job: JobId, row: JobRow, plan: Plan, sys': Sys, task: nat, now: Time, m: nat)
    requires sequence < |sys.stream| && plan == AdvisedPlan(sys.world, sequence, sys.stream[sequence].body, job, row)
    requires Ends(sys, plan, sys', task, now, m)
    ensures Ends(sys, [Advised(sequence, job, row)], sys', task, now, m + 1)
  {
    StepEnds(sys, [Advised(sequence, job, row)], sys, plan, sys', task, now, m);
  }

  lemma AdvisoryEnds(sys: Sys, sequence: nat, job: JobId, plan: Plan, sys': Sys, task: nat, now: Time, m: nat)
    requires NamesJob(sys.stream, sequence, job) && job in sys.world.db.jobs && !sys.stream[sequence].retired
    requires plan == AdvisedPlan(sys.world, sequence, sys.stream[sequence].body, job, sys.world.db.jobs[job])
    requires Ends(sys, plan, sys', task, now, m)
    ensures Ends(sys, [Advise(sequence)], sys', task, now, m + 2)
  {
    var row := sys.world.db.jobs[job];
    AdvisedEnds(sys, sequence, job, row, plan, sys', task, now, m);
    StepEnds(sys, [Advise(sequence)], sys, [Advised(sequence, job, row)], sys', task, now, m + 1);
  }

  // ----- Jobs to be run -----

  /** A row under this lease, held or expired, of a job that is not over. */
  predicate LeasedTo(w: World, job: JobId, guard: Guard) {
    job in w.db.jobs && !w.db.jobs[job].state.Terminal() && LeaseOf(w.db.jobs[job]) == Some(guard)
  }

  predicate Truthful(w: World, job: JobId, body: Body) {
    job in w.db.jobs && body == Canonical(job, w.db.jobs[job])
  }

  /** A delivery of a leased job ends up bound to the lease, unless a higher one is. */
  lemma LeasedDeliveryIsBound(sys: Sys, task: nat, sequence: nat, job: JobId, guard: Guard, now: Time) returns (sys': Sys)
    requires NamesJob(sys.stream, sequence, job)
    requires LeasedTo(sys.world, job, guard) && Truthful(sys.world, job, sys.stream[sequence].body)
    ensures Ends(sys, [Inspect(sequence)], sys', task, now, 4)
    ensures Ack.Lookup(sys'.bindings, job, guard) == Ok(BoundHigher(sys, job, guard, sequence))
  {
    sys' := RebindKeepsHigher(Looked(sys, job), job, guard, sequence, task, now);
    DeliveryEnds(sys, sequence, job, [BindOrAck(job, guard, sequence)], sys', task, now, 3);
  }

  /** A delivery of a queued job is in the buffer afterwards, unless a higher one is. */
  lemma QueuedDeliveryIsBuffered(sys: Sys, task: nat, sequence: nat, job: JobId, now: Time) returns (sys': Sys)
    requires NamesJob(sys.stream, sequence, job) && Waiting(sys, job)
    requires Truthful(sys.world, job, sys.stream[sequence].body) && HasPlace(sys, job)
    ensures Ends(sys, [Inspect(sequence)], sys', task, now, 4)
    ensures job in sys'.buffer
    ensures sys'.buffer[job].sequence == if job in sys.buffer then Higher(sys.buffer[job].sequence, sequence) else sequence
  {
    var pending := Pending(sys.stream[sequence].body, sequence);
    QueuedIsNotObserved(sys.world, job);
    if job in sys.buffer {
      sys' := OfferKeepsHigher(sys, job, pending, task, now);
    } else {
      sys' := sys.(buffer := sys.buffer[job := pending]);
      FreshOfferIsPushed(sys, job, pending, task, now);
      EndsWithin(sys, [Offer(job, pending)], sys', task, now, 1, 3);
    }
    DeliveryEnds(sys, sequence, job, [Offer(job, pending)], sys', task, now, 3);
  }

  /** An entry that the fair queue gives out stays in hand for claiming when its job is queued. */
  lemma QueuedEntryIsDispatched(sys: Sys, task: nat, job: JobId, pending: Pending, now: Time)
    requires Waiting(sys, job) && Truthful(sys.world, job, pending.body)
    ensures CanMove(WithPlan(sys, task, [Review(job, pending)]), Perform(task, now))
    ensures Next(WithPlan(sys, task, [Review(job, pending)]), Perform(task, now)) == WithPlan(sys, task, [Dispatch(job, pending)])
  {
    QueuedIsNotObserved(sys.world, job);
    ReplannedTwice(sys, task, [Review(job, pending)], [Dispatch(job, pending)]);
  }

  /** Cancelled before any attempt: its delivery is there to finalize it. */
  predicate CancelledUnclaimed(row: JobRow) {
    !row.state.Terminal() && row.pending == Some(JobOutcome.Cancelled) && LeaseOf(row).None? && row.attempts == 0
  }

  /** Whether the dispatcher can tell at once what to do with a delivery of the job. */
  predicate Decided(row: JobRow, job: JobId, body: Body, now: Time) {
    || row.state.Terminal() || CancelledUnclaimed(row) || body != Canonical(job, row)
    || (LeaseOf(row).Some? && row.expires.Some? && row.expires.value > now)
  }

  /** A popped entry whose job needs no claim is handled like a fresh delivery of its message. */
  lemma DecidedEntryIsDelivered(sys: Sys, task: nat, sequence: nat, job: JobId, now: Time)
    requires NamesJob(sys.stream, sequence, job) && job in sys.world.db.jobs
    requires Decided(sys.world.db.jobs[job], job, sys.stream[sequence].body, now)
    ensures Next(WithPlan(sys, task, [Review(job, Pending(sys.stream[sequence].body, sequence))]), Perform(task, now)) ==
      Next(WithPlan(sys, task, [Inspect(sequence)]), Perform(task, now))
  {
    var pending, row := Pending(sys.stream[sequence].body, sequence), sys.world.db.jobs[job];
    var plan := AcceptPlan(pending, job, row, now);
    assert plan == DispatchPlan(pending, job, row, now);
    ReplannedTwice(Looked(sys, job), task, [Review(job, pending)], plan);
    ReplannedTwice(Looked(sys, job), task, [Inspect(sequence)], plan);
  }

  /** One whose job waits for recovery goes back into the buffer. */
  lemma HeldEntryIsBuffered(sys: Sys, task: nat, job: JobId, pending: Pending, now: Time)
    requires job in sys.world.db.jobs && !sys.world.db.jobs[job].state.Queued?
    requires !Decided(sys.world.db.jobs[job], job, pending.body, now)
    requires job !in sys.buffer && |sys.buffer| < sys.capacity
    ensures Ends(sys, [Review(job, pending)], Looked(sys, job).(buffer := sys.buffer[job := pending]), task, now, 2)
  {
    RequeueLast(Looked(sys, job), job, pending, task, now);
    ReviewEnds(sys, job, pending, [Requeue(job, pending)], Looked(sys, job).(buffer := sys.buffer[job := pending]), task, now, 1);
  }

  // ----- Deliveries of ended jobs -----

  predicate AwaitsLetter(w: World, job: JobId, row: JobRow) {
    MarkerKey(job, row) in w.db.outbox && !IsPublished(w, MarkerKey(job, row))
  }

  /** The marker of an ended job, as the handlers look it up. */
  lemma MarkerIsFound(w: World, job: JobId)
    requires OutboxOk(w) && w.maxAttempts > 0 && IsEnded(w, job) && RowPlain(w.db.jobs[job])
    ensures var row := w.db.jobs[job];
      && (MarkerKey(job, row) in w.db.outbox ==> Marked(w, job, row) && row.state.InfraFailed?)
      && (AwaitsLetter(w, job, row) <==> !ExhaustionConfirmed(w, job))
  {
    if ExhaustedKey(job, w.maxAttempts) in w.db.outbox { assert Exhausted(w, job); }
    if MarkerKey(job, w.db.jobs[job]) in w.db.outbox { assert Exhausted(w, job); }
  }

  lemma MarkedAtMaximum(w: World, job: JobId)
    requires WorldOk(w) && job in w.db.jobs && MarkerKey(job, w.db.jobs[job]) in w.db.outbox
    ensures w.db.jobs[job].attempts >= w.maxAttempts
  {
    assert Exhausted(w, job);
  }

  lemma EndedIsMarkedFully(w: World, job: JobId)
    requires WorldOk(w) && IsEnded(w, job)
    ensures var row := w.db.jobs[job];
      && (MarkerKey(job, row) in w.db.outbox ==> Marked(w, job, row) && row.state.InfraFailed? && row.attempts >= w.maxAttempts)
      && (AwaitsLetter(w, job, row) <==> !ExhaustionConfirmed(w, job))
  {
    RowsArePlain(w, job);
    MarkerIsFound(w, job);
    if MarkerKey(job, w.db.jobs[job]) in w.db.outbox { MarkedAtMaximum(w, job); }
  }

  /** What is due for a message about an ended job. */
  predicate Gone(sys: Sys, sequence: nat, waits: bool, sys': Sys) {
    sys'.stream == if waits then sys.stream else Retired(sys, sequence).stream
  }

  lemma ExhaustedPlanEnds(sys: Sys, sequence: nat, job: JobId, row: JobRow, task: nat, now: Time) returns (sys': Sys)
    requires MarkerKey(job, row) in sys.world.db.outbox
    ensures Ends(sys, ExhaustedPlan(sequence, job, row.attempts), sys', task, now, 3)
    ensures Gone(sys, sequence, AwaitsLetter(sys.world, job, row), sys')
  {
    sys' := LetterPlanEnds(sys, sequence, LetterFor(sequence, Some(job), row.attempts, AttemptsExhausted), task, now);
  }

  lemma FinishEnds(sys: Sys, sequence: nat, job: JobId, row: JobRow, task: nat, now: Time) returns (sys': Sys)
    requires MarkerKey(job, row) in sys.world.db.outbox ==> Marked(sys.world, job, row)
    ensures Ends(sys, [FinishTerminal(sequence, job, row)], sys', task, now, 4)
    ensures Gone(sys, sequence, AwaitsLetter(sys.world, job, row), sys')
  {
    var plan := [FinishTerminal(sequence, job, row)];
    if MarkerKey(job, row) in sys.world.db.outbox {
      sys' := ExhaustedPlanEnds(sys, sequence, job, row, task, now);
      StepEnds(sys, plan, sys, ExhaustedPlan(sequence, job, row.attempts), sys', task, now, 3);
    } else {
      sys' := Retired(sys, sequence);
      RetireLast(sys, sequence, task, now);
      StepEnds(sys, plan, sys, [Retire(sequence)], sys', task, now, 1);
      EndsWithin(sys, plan, sys', task, now, 2, 4);
    }
  }

  lemma TerminalPlanEnds(sys: Sys, sequence: nat, job: JobId, row: JobRow, task: nat, now: Time) returns (sys': Sys)
    requires MarkerKey(job, row) in sys.world.db.outbox ==> Marked(sys.world, job, row) && row.state.InfraFailed?
    ensures Ends(sys, TerminalPlan(sequence, job, row), sys', task, now, 4)
    ensures Gone(sys, sequence, AwaitsLetter(sys.world, job, row), sys')
  {
    if row.state.InfraFailed? {
      sys' := FinishEnds(sys, sequence, job, row, task, now);
    } else {
      sys' := Retired(sys, sequence);
      RetireLast(sys, sequence, task, now);
      EndsWithin(sys, [Retire(sequence)], sys', task, now, 1, 4);
    }
  }

  lemma EndedIsNotObserved(sys: Sys, job: JobId)
    requires IsEnded(sys.world, job)
    ensures Looked(sys, job) == sys
  {}

  /** A message about an ended job goes at once, unless the job was exhausted and its dead letter is
      not published yet. */
  lemma EndedMessageGoes(sys: Sys, task: nat, sequence: nat, job: JobId, now: Time) returns (sys': Sys)
    requires WorldOk(sys.world) && IsEnded(sys.world, job) && NamesJob(sys.stream, sequence, job)
    ensures Ends(sys, [Inspect(sequence)], sys', task, now, 5)
    ensures Gone(sys, sequence, !ExhaustionConfirmed(sys.world, job), sys')
  {
    var row := sys.world.db.jobs[job];
    EndedIsMarkedFully(sys.world, job);
    EndedIsNotObserved(sys, job);
    sys' := TerminalPlanEnds(sys, sequence, job, row, task, now);
    DeliveryEnds(sys, sequence, job, TerminalPlan(sequence, job, row), sys', task, now, 4);
  }

  // ----- Messages that contradict the row -----

  /** The message may go once its dead letter is published; the row's own message is in the stream. */
  predicate Corrected(sys: Sys, sequence: nat, body: Body, sys': Sys) {
    && InconsistentKey(sequence + 1) in sys'.world.db.outbox
    && sys'.stream == (if IsPublished(sys.world, InconsistentKey(sequence + 1)) then Retired(sys, sequence).stream else sys.stream)
         + [Message(body, false)]
  }

  lemma RetiredBelow(sys: Sys, sequence: nat, id: MessageId, body: Body)
    requires sequence < |sys.stream| && id !in sys.ids
    ensures Published(sys, id, body).stream == sys.stream + [Message(body, false)]
    ensures Retired(Published(sys, id, body), sequence).stream == Retired(sys, sequence).stream + [Message(body, false)]
  {}

  lemma PoisonPlanEnds(sys: Sys, sequence: nat, job: JobId, row: JobRow, task: nat, now: Time) returns (sys': Sys)
    requires RedriveId(sequence) !in sys.ids && sequence < |sys.stream|
    ensures Ends(sys, PoisonPlan(sequence, job, row), sys', task, now, 4)
    ensures Corrected(sys, sequence, Canonical(job, row), sys')
  {
    var letter, plan := LetterFor(sequence, Some(job), row.attempts, CanonicalJobInconsistent), PoisonPlan(sequence, job, row);
    var redriven := Published(sys, RedriveId(sequence), Canonical(job, row));
    sys' := LetterPlanEnds(redriven, sequence, letter, task, now);
    assert plan[1..] == DeadLetterPlan(sequence, letter);
    StepEnds(sys, plan, redriven, plan[1..], sys', task, now, 3);
    RetiredBelow(sys, sequence, RedriveId(sequence), Canonical(job, row));
  }

  /** A message that contradicts the row is replaced by one that agrees with it, gets its dead letter,
      and goes once that is published. */
  lemma PoisonDeliveryIsReplaced(sys: Sys, task: nat, sequence: nat, job: JobId, now: Time) returns (sys': Sys)
    requires RedriveId(sequence) !in sys.ids
    requires NamesJob(sys.stream, sequence, job) && job in sys.world.db.jobs && !Truthful(sys.world, job, sys.stream[sequence].body)
    requires !sys.world.db.jobs[job].state.Terminal() && !CancelledUnclaimed(sys.world.db.jobs[job])
    ensures Ends(sys, [Inspect(sequence)], sys', task, now, 5)
    ensures Corrected(sys, sequence, Canonical(job, sys.world.db.jobs[job]), sys')
  {
    var row := sys.world.db.jobs[job];
    sys' := PoisonPlanEnds(Looked(sys, job), sequence, job, row, task, now);
    DeliveryEnds(sys, sequence, job, PoisonPlan(sequence, job, row), sys', task, now, 4);
  }

  // ----- Cancellations before any attempt -----

  /** A cancelled, unleased job on its way to the end, as the handler has seen it. */
  predicate Cancelling(w: World, job: JobId, state: JobState) {
    && job in w.db.jobs && job in w.seen && w.seen[job].outcome.Cancelled?
    && RowOk(w.db.jobs[job], w.maxAttempts) && w.db.jobs[job].state == state && w.db.jobs[job].lease.None?
    && w.db.jobs[job].pending == Some(JobOutcome.Cancelled)
  }

  predicate IsCancelled(w: World, job: JobId) {
    job in w.db.jobs && w.db.jobs[job].state == JobState.Cancelled
  }

  lemma CleanupBegins(w: World, job: JobId) returns (w': World)
    requires Cancelling(w, job, CollectingArtifacts)
    ensures w' == After(w, DoFinalize(job, false)) && !FinalizeFails(w, job, false) && Cancelling(w', job, CleaningUp)
  {
    w' := After(w, DoFinalize(job, false));
  }

  lemma CleanupEnds(w: World, job: JobId) returns (w': World)
    requires Cancelling(w, job, CleaningUp)
    ensures w' == After(w, DoFinalize(job, true)) && !FinalizeFails(w, job, true) && IsCancelled(w', job)
  {
    w' := After(w, DoFinalize(job, true));
  }

  lemma FinalizeFirst(sys: Sys, job: JobId, finish: bool, plan: Plan, rest: Plan, w: World, sys': Sys, task: nat, now: Time, m: nat)
    requires plan == [Finalize(job, finish)] + rest
    requires !FinalizeFails(sys.world, job, finish) && w == After(sys.world, DoFinalize(job, finish))
    requires Ends(sys.(world := w), if finish then rest else [Refresh(job)] + rest, sys', task, now, m)
    ensures Ends(sys, plan, sys', task, now, m + 1)
  {
    assert plan[1..] == rest;
    StepEnds(sys, plan, sys.(world := w), if finish then rest else [Refresh(job)] + rest, sys', task, now, m);
  }

  lemma FinishPlanEnds(sys: Sys, sequence: nat, job: JobId, task: nat, now: Time) returns (sys': Sys)
    requires Cancelling(sys.world, job, CleaningUp)
    ensures Ends(sys, [Finalize(job, true)] + [Retire(sequence)], sys', task, now, 2)
    ensures IsCancelled(sys'.world, job) && sys'.stream == Retired(sys, sequence).stream
  {
    var w := CleanupEnds(sys.world, job);
    sys' := Retired(sys.(world := w), sequence);
    RetireLast(sys.(world := w), sequence, task, now);
    FinalizeFirst(sys, job, true, [Finalize(job, true)] + [Retire(sequence)], [Retire(sequence)], w, sys', task, now, 1);
  }

  lemma RefreshPlanEnds(sys: Sys, sequence: nat, job: JobId, task: nat, now: Time) returns (sys': Sys)
    requires Cancelling(sys.world, job, CleaningUp)
    ensures Ends(sys, [Refresh(job), Retire(sequence)], sys', task, now, 3)
    ensures IsCancelled(sys'.world, job) && sys'.stream == Retired(sys, sequence).stream
  {
    var plan := [Refresh(job), Retire(sequence)];
    assert plan[1..] == [Retire(sequence)];
    sys' := FinishPlanEnds(sys, sequence, job, task, now);
    StepEnds(sys, plan, sys, [Finalize(job, true)] + [Retire(sequence)], sys', task, now, 2);
  }

  lemma FinalizePlanEnds(sys: Sys, sequence: nat, job: JobId, task: nat, now: Time) returns (sys': Sys)
    requires Cancelling(sys.world, job, CollectingArtifacts)
    ensures Ends(sys, [Finalize(job, false), Retire(sequence)], sys', task, now, 4)
    ensures IsCancelled(sys'.world, job) && sys'.stream == Retired(sys, sequence).stream
  {
    var plan, rest := [Finalize(job, false), Retire(sequence)], [Retire(sequence)];
    var w := CleanupBegins(sys.world, job);
    sys' := RefreshPlanEnds(sys.(world := w), sequence, job, task, now);
    assert plan == [Finalize(job, false)] + rest && [Refresh(job)] + rest == [Refresh(job), Retire(sequence)];
    FinalizeFirst(sys, job, false, plan, rest, w, sys', task, now, 3);
  }

  lemma CancellationPlanEnds(sys: Sys, sequence: nat, job: JobId, row: JobRow, task: nat, now: Time) returns (sys': Sys)
    requires row.state in {CollectingArtifacts, CleaningUp} && Cancelling(sys.world, job, row.state)
    ensures Ends(sys, CancellationPlan(sequence, job, row), sys', task, now, 4)
    ensures IsCancelled(sys'.world, job) && sys'.stream == Retired(sys, sequence).stream
  {
    if row.state.CollectingArtifacts? {
      sys' := FinalizePlanEnds(sys, sequence, job, task, now);
    } else {
      sys' := RefreshPlanEnds(sys, sequence, job, task, now);
      EndsWithin(sys, [Refresh(job), Retire(sequence)], sys', task, now, 3, 4);
    }
  }

  lemma CancellingIsSeen(w: World, job: JobId)
    requires job in w.db.jobs && RowOk(w.db.jobs[job], w.maxAttempts) && CancelledUnclaimed(w.db.jobs[job])
    ensures w.db.jobs[job].state in {CollectingArtifacts, CleaningUp}
    ensures Cancelling(After(w, DoObserve(job)), job, w.db.jobs[job].state)
  {}

  /** A delivery of a job cancelled before any attempt ends the job as cancelled, and goes. */
  lemma CancelledDeliveryEnds(sys: Sys, task: nat, sequence: nat, job: JobId, now: Time) returns (sys': Sys)
    requires NamesJob(sys.stream, sequence, job)
    requires job in sys.world.db.jobs && RowOk(sys.world.db.jobs[job], sys.world.maxAttempts)
    requires CancelledUnclaimed(sys.world.db.jobs[job])
    ensures Ends(sys, [Inspect(sequence)], sys', task, now, 5)
    ensures IsCancelled(sys'.world, job) && sys'.stream == Retired(sys, sequence).stream
  {
    var row := sys.world.db.jobs[job];
    CancellingIsSeen(sys.world, job);
    sys' := CancellationPlanEnds(Looked(sys, job), sequence, job, row, task, now);
    DeliveryEnds(sys, sequence, job, CancellationPlan(sequence, job, row), sys', task, now, 4);
  }

  // ----- Advisories -----

  lemma RunnableIsRedriven(w: World, sequence: nat, job: JobId, row: JobRow)
    requires !row.state.Terminal() && MarkerKey(job, row) !in w.db.outbox
    ensures AdvisedPlan(w, sequence, Canonical(job, row), job, row) ==
      [Redrive(sequence, Canonical(job, row)), Retire(sequence)]
  {}

  lemma RedrivePlanEnds(sys: Sys, sequence: nat, body: Body, task: nat, now: Time) returns (sys': Sys)
    requires RedriveId(sequence) !in sys.ids && sequence < |sys.stream|
    ensures Ends(sys, [Redrive(sequence, body), Retire(sequence)], sys', task, now, 2)
    ensures sys'.stream == Retired(sys, sequence).stream + [Message(body, false)]
  {
    var plan, redriven := [Redrive(sequence, body), Retire(sequence)], Published(sys, RedriveId(sequence), body);
    sys' := Retired(redriven, sequence);
    assert plan[1..] == [Retire(sequence)];
    RetireLast(redriven, sequence, task, now);
    StepEnds(sys, plan, redriven, [Retire(sequence)], sys', task, now, 1);
    RetiredBelow(sys, sequence, RedriveId(sequence), body);
  }

  /** The advisory about a message that agrees with the row of a job still to be run: a new message
      takes its place. */
  lemma AdvisedMessageIsReplaced(sys: Sys, task: nat, sequence: nat, job: JobId, now: Time) returns (sys': Sys)
    requires NamesJob(sys.stream, sequence, job) && !sys.stream[sequence].retired && RedriveId(sequence) !in sys.ids
    requires Truthful(sys.world, job, sys.stream[sequence].body) && !sys.world.db.jobs[job].state.Terminal()
    requires MarkerKey(job, sys.world.db.jobs[job]) !in sys.world.db.outbox
    ensures Ends(sys, [Advise(sequence)], sys', task, now, 4)
    ensures sys'.stream == Retired(sys, sequence).stream + [Message(sys.stream[sequence].body, false)]
  {
    var body := sys.stream[sequence].body;
    RunnableIsRedriven(sys.world, sequence, job, sys.world.db.jobs[job]);
    sys' := RedrivePlanEnds(sys, sequence, body, task, now);
    AdvisoryEnds(sys, sequence, job, [Redrive(sequence, body), Retire(sequence)], sys', task, now, 2);
  }

  /** The advisory about a message of an ended job: it goes, unless the job was exhausted and its dead
      letter is not published yet. */
  lemma EndedAdvisoryGoes(sys: Sys, task: nat, sequence: nat, job: JobId, now: Time) returns (sys': Sys)
    requires WorldOk(sys.world) && IsEnded(sys.world, job) && NamesJob(sys.stream, sequence, job) && !sys.stream[sequence].retired
    ensures Ends(sys, [Advise(sequence)], sys', task, now, 5)
    ensures Gone(sys, sequence, !ExhaustionConfirmed(sys.world, job), sys')
  {
    var row, body := sys.world.db.jobs[job], sys.stream[sequence].body;
    EndedIsMarkedFully(sys.world, job);
    sys' := EndedAdvisedPlanEnds(sys, sequence, body, job, row, task, now);
    AdvisoryEnds(sys, sequence, job, AdvisedPlan(sys.world, sequence, body, job, row), sys', task, now, 3);
  }

  lemma EndedAdvisedPlanEnds(sys: Sys, sequence: nat, body: Body, job: JobId, row: JobRow, task: nat, now: Time) returns (sys': Sys)
    requires row.state.Terminal()
    requires MarkerKey(job, row) in sys.world.db.outbox ==> Marked(sys.world, job, row) && row.attempts >= sys.world.maxAttempts
    ensures Ends(sys, AdvisedPlan(sys.world, sequence, body, job, row), sys', task, now, 3)
    ensures Gone(sys, sequence, AwaitsLetter(sys.world, job, row), sys')
  {
    if MarkerKey(job, row) in sys.world.db.outbox {
      sys' := ExhaustedPlanEnds(sys, sequence, job, row, task, now);
    } else {
      sys' := Retired(sys, sequence);
      RetireLast(sys, sequence, task, now);
      EndsWithin(sys, [Retire(sequence)], sys', task, now, 1, 3);
    }
  }

  /** So does the advisory about a truthful message of a job that recovery has exhausted. */
  lemma ExhaustedAdvisoryGoes(sys: Sys, task: nat, sequence: nat, job: JobId, now: Time) returns (sys': Sys)
    requires NamesJob(sys.stream, sequence, job) && !sys.stream[sequence].retired
    requires Truthful(sys.world, job, sys.stream[sequence].body) && !sys.world.db.jobs[job].state.Terminal()
    requires var row := sys.world.db.jobs[job];
      Marked(sys.world, job, row) && row.attempts >= sys.world.maxAttempts
      && row.pending == Some(JobOutcome.InfraFailed) && LeaseOf(row).None?
    ensures Ends(sys, [Advise(sequence)], sys', task, now, 5)
    ensures Gone(sys, sequence, AwaitsLetter(sys.world, job, sys.world.db.jobs[job]), sys')
  {
    var row := sys.world.db.jobs[job];
    sys' := ExhaustedPlanEnds(sys, sequence, job, row, task, now);
    AdvisoryEnds(sys, sequence, job, ExhaustedPlan(sequence, job, row.attempts), sys', task, now, 3);
  }

  /** The advisory about a message that contradicts the row: as for a delivery of it. */
  lemma AdvisedPoisonIsReplaced(sys: Sys, task: nat, sequence: nat, job: JobId, now: Time) returns (sys': Sys)
    requires NamesJob(sys.stream, sequence, job) && job in sys.world.db.jobs && !Truthful(sys.world, job, sys.stream[sequence].body)
    requires RedriveId(sequence) !in sys.ids && !sys.stream[sequence].retired
    requires var row := sys.world.db.jobs[job];
      !row.state.Terminal() && (MarkerKey(job, row) in sys.world.db.outbox ==> Marked(sys.world, job, row))
    ensures Ends(sys, [Advise(sequence)], sys', task, now, 6)
    ensures Corrected(sys, sequence, Canonical(job, sys.world.db.jobs[job]), sys')
  {
    var row := sys.world.db.jobs[job];
    sys' := PoisonPlanEnds(sys, sequence, job, row, task, now);
    AdvisoryEnds(sys, sequence, job, PoisonPlan(sequence, job, row), sys', task, now, 4);
  }

  /** Advisories about messages that name no job: as for a delivery of them. */
  lemma AdvisedMalformedIsBuried(sys: Sys, task: nat, sequence: nat, now: Time) returns (sys': Sys)
    requires sequence < |sys.stream| && sys.stream[sequence].body.Malformed? && !sys.stream[sequence].retired
    ensures Ends(sys, [Advise(sequence)], sys', task, now, 4) && Buried(sys, sequence, MalformedKey(sequence + 1), sys')
  {
    var letter := LetterFor(sequence, None, 1, MalformedMessage);
    sys' := LetterPlanEnds(sys, sequence, letter, task, now);
    StepEnds(sys, [Advise(sequence)], sys, DeadLetterPlan(sequence, letter), sys', task, now, 3);
  }

  lemma AdvisedStrangerIsBuried(sys: Sys, task: nat, sequence: nat, now: Time) returns (sys': Sys)
    requires sequence < |sys.stream| && sys.stream[sequence].body.Names? && sys.stream[sequence].body.job !in sys.world.db.jobs
    requires !sys.stream[sequence].retired
    ensures Ends(sys, [Advise(sequence)], sys', task, now, 4) && Buried(sys, sequence, InconsistentKey(sequence + 1), sys')
  {
    var letter := LetterFor(sequence, Some(sys.stream[sequence].body.job), 1, CanonicalJobInconsistent);
    sys' := LetterPlanEnds(sys, sequence, letter, task, now);
    StepEnds(sys, [Advise(sequence)], sys, DeadLetterPlan(sequence, letter), sys', task, now, 3);
  }

  /** The advisory about a message that is gone already does nothing. */
  lemma AdvisoryOfGoneIsIgnored(sys: Sys, task: nat, sequence: nat, now: Time)
    requires sequence < |sys.stream| && sys.stream[sequence].retired
    ensures Ends(sys, [Advise(sequence)], sys, task, now, 1)
  {
    LastStepEnds(sys, [Advise(sequence)], sys, task, now);
  }

  /** A popped entry of a job without a row: as for a delivery of its message. */
  lemma StrangeEntryIsBuried(sys: Sys, task: nat, job: JobId, pending: Pending, now: Time) returns (sys': Sys)
    requires job !in sys.world.db.jobs
    ensures Ends(sys, [Review(job, pending)], sys', task, now, 4)
    ensures Buried(sys, pending.sequence, InconsistentKey(pending.sequence + 1), sys')
  {
    var letter := LetterFor(pending.sequence, Some(job), 1, CanonicalJobInconsistent);
    sys' := LetterPlanEnds(sys, pending.sequence, letter, task, now);
    StepEnds(sys, [Review(job, pending)], sys, DeadLetterPlan(pending.sequence, letter), sys', task, now, 3);
  }
}
