/** The work queue: stream messages, the fairness buffer, acknowledgement bindings and the handlers
    that move between them, one externally visible effect at a time.  A handler can stop between
    any two effects, and any number of handlers and transactions interleave. */
module QueueProtocol {
  import opened Base
  import opened Lifecycle
  import opened DeadLetters
  import opened Store
  import opened Runs
  import opened Invariant
  import opened Delivery
  import Ack = Acknowledgements

  // ----- State -----

  /** A retired message has been acknowledged, terminated or deleted: it is never delivered again. */
  datatype Message = Message(body: Body, retired: bool)

  /** The deduplication ids that publishers use. */
  datatype MessageId = QueuedId(job: JobId) | RedriveId(source: nat)

  datatype Pending = Pending(body: Body, sequence: nat)

  /** Who asks for the acknowledgement of an ended job: the worker that ended it (or repeats its
      result), the reconciler that finalized its cancellation, or a terminal transition request
      that found the job already in the requested state. */
  datatype AckCause = FromWorker | FromReconciler | FromReplay

  /** One effect of a handler, with what the handler remembers at that point. */
  datatype Effect =
    | Inspect(sequence: nat)
    | Review(job: JobId, pending: Pending)
    | Advise(sequence: nat)
    | Advised(sequence: nat, job: JobId, row: JobRow)
    | FinishTerminal(sequence: nat, job: JobId, row: JobRow)
    | Offer(job: JobId, pending: Pending)
    | Replace(job: JobId, sequence: nat)
    | Dispatch(job: JobId, pending: Pending)
    | Requeue(job: JobId, pending: Pending)
    | BindOrAck(job: JobId, guard: Guard, sequence: nat)
    | Bind(job: JobId, binding: Ack.AckBinding)
    | ConfirmAck(job: JobId, guard: Guard, cause: AckCause)
    | Unbind(job: JobId, guard: Guard, sequence: nat, cause: AckCause)
    | TakeBound(job: JobId, guard: Guard)
    | Finalize(job: JobId, finish: bool)
    | Refresh(job: JobId)
    | Redrive(sequence: nat, body: Body)
    | Letter(letter: DeadLetter)
    | AwaitPublished(key: OutboxKey)
    | Retire(sequence: nat)

  type Plan = seq<Effect>

  /** `confirmed` are the outbox rows whose publication the server has confirmed; `ids` is the
      server's deduplication window; `spent` are the messages that the consumer has delivered
      max_deliver times.  The fairness buffer holds at most `capacity` jobs. */
  datatype Sys = Sys(
    world: World,
    stream: seq<Message>,
    ids: map<MessageId, nat>,
    confirmed: set<OutboxKey>,
    buffer: map<JobId, Pending>,
    bindings: Ack.Bindings,
    tasks: map<nat, Plan>,
    capacity: nat,
    spent: set<nat>)

  predicate NamesJob(stream: seq<Message>, i: nat, job: JobId) {
    i < |stream| && stream[i].body.Names? && stream[i].body.job == job
  }

  // ----- Plans of the handlers -----

  /** Sequence numbers on the wire start at 1. */
  function LetterFor(sequence: nat, job: Option<JobId>, attempt: nat, reason: Reason): DeadLetter {
    DeadLetter(job, Some(sequence + 1), Max(attempt, 1), reason)
  }

  /** Publish the dead letter, wait until it is confirmed, then retire the source message. */
  function DeadLetterPlan(sequence: nat, letter: DeadLetter): Plan {
    if Validate(letter).Some? then []
    else [Letter(letter), AwaitPublished(Identity(letter)), Retire(sequence)]
  }

  function InconsistentPlan(sequence: nat, job: JobId, attempt: nat): Plan {
    DeadLetterPlan(sequence, LetterFor(sequence, Some(job), attempt, CanonicalJobInconsistent))
  }

  function MalformedPlan(sequence: nat): Plan {
    DeadLetterPlan(sequence, LetterFor(sequence, None, 1, MalformedMessage))
  }

  function ExhaustedPlan(sequence: nat, job: JobId, attempts: nat): Plan {
    DeadLetterPlan(sequence, LetterFor(sequence, Some(job), attempts, AttemptsExhausted))
  }

  function TerminalPlan(sequence: nat, job: JobId, row: JobRow): Plan {
    if row.state.InfraFailed? then [FinishTerminal(sequence, job, row)] else [Retire(sequence)]
  }

  function CancellationPlan(sequence: nat, job: JobId, row: JobRow): Plan {
    [if row.state.CollectingArtifacts? then Finalize(job, false) else Refresh(job), Retire(sequence)]
  }

  function PoisonPlan(sequence: nat, job: JobId, row: JobRow): Plan {
    [Redrive(sequence, Canonical(job, row))] + InconsistentPlan(sequence, job, row.attempts)
  }

  /** A fresh delivery of a message that names an existing job. */
  function AcceptPlan(pending: Pending, job: JobId, row: JobRow, now: Time): Plan {
    match Classify(pending.body, job, row, now)
    case AckTerminal => TerminalPlan(pending.sequence, job, row)
    case FinalizeCancellation => CancellationPlan(pending.sequence, job, row)
    case Rebind(guard) => [BindOrAck(job, guard, pending.sequence)]
    case HoldForReconciliation =>
      if LeaseOf(row).Some? then [BindOrAck(job, LeaseOf(row).value, pending.sequence)] else []
    case DeadLetterInconsistent => PoisonPlan(pending.sequence, job, row)
    case Buffer => [Offer(job, pending)]
  }

  /** An entry that the fair queue has just given out. */
  function DispatchPlan(pending: Pending, job: JobId, row: JobRow, now: Time): Plan {
    match Classify(pending.body, job, row, now)
    case AckTerminal => TerminalPlan(pending.sequence, job, row)
    case FinalizeCancellation => CancellationPlan(pending.sequence, job, row)
    case Rebind(guard) => [BindOrAck(job, guard, pending.sequence)]
    case HoldForReconciliation => [Requeue(job, pending)]
    case DeadLetterInconsistent => PoisonPlan(pending.sequence, job, row)
    case Buffer => [Dispatch(job, pending)]
  }

  function MarkerKey(job: JobId, row: JobRow): OutboxKey {
    ExhaustedKey(job, Max(row.attempts, 1))
  }

  predicate Marked(w: World, job: JobId, row: JobRow) {
    MarkerKey(job, row) in w.db.outbox && MarkerMatches(w.db.outbox[MarkerKey(job, row)], job, Max(row.attempts, 1))
  }

  /** A max-deliver or terminated advisory about a message that names an existing job. */
  function AdvisedPlan(w: World, sequence: nat, body: Body, job: JobId, row: JobRow): Plan {
    var exhausted := Marked(w, job, row) && row.attempts >= w.maxAttempts;
    if MarkerKey(job, row) in w.db.outbox && !Marked(w, job, row) then []
    else if row.state.Terminal() then
      if exhausted then ExhaustedPlan(sequence, job, row.attempts) else [Retire(sequence)]
    else if body != Canonical(job, row) then PoisonPlan(sequence, job, row)
    else if row.pending == Some(JobOutcome.InfraFailed) && LeaseOf(row).None? && exhausted then
      ExhaustedPlan(sequence, job, row.attempts)
    else [Redrive(sequence, Canonical(job, row)), Retire(sequence)]
  }

  // ----- Effects -----

  function WithPlan(sys: Sys, task: nat, plan: Plan): Sys {
    sys.(tasks := sys.tasks[task := plan])
  }

  /** The server appends a message unless its id is still in the deduplication window. */
  function Published(sys: Sys, id: MessageId, body: Body): Sys {
    if id in sys.ids then sys
    else sys.(stream := sys.stream + [Message(body, false)], ids := sys.ids[id := |sys.stream|])
  }

  function Retired(sys: Sys, sequence: nat): Sys {
    if sequence < |sys.stream| then
      sys.(stream := sys.stream[sequence := sys.stream[sequence].(retired := true)])
    else sys
  }

  function Bound(sys: Sys, job: JobId, guard: Guard): Option<Ack.AckBinding> {
    match Ack.Lookup(sys.bindings, job, guard)
    case Ok(binding) => Some(binding)
    case Err(_) => None
  }

  function InspectEffect(sys: Sys, task: nat, sequence: nat, now: Time): Sys {
    if sequence >= |sys.stream| then WithPlan(sys, task, [])
    else
      var body := sys.stream[sequence].body;
      if body.Malformed? then WithPlan(sys, task, MalformedPlan(sequence))
      else if body.job !in sys.world.db.jobs then WithPlan(sys, task, InconsistentPlan(sequence, body.job, 1))
      else
        var plan := AcceptPlan(Pending(body, sequence), body.job, sys.world.db.jobs[body.job], now);
        WithPlan(sys.(world := After(sys.world, DoObserve(body.job))), task, plan)
  }

  function ReviewEffect(sys: Sys, task: nat, job: JobId, pending: Pending, now: Time): Sys {
    if job !in sys.world.db.jobs then WithPlan(sys, task, InconsistentPlan(pending.sequence, job, 1))
    else
      var plan := DispatchPlan(pending, job, sys.world.db.jobs[job], now);
      WithPlan(sys.(world := After(sys.world, DoObserve(job))), task, plan)
  }

  function AdviseEffect(sys: Sys, task: nat, sequence: nat): Sys {
    if sequence >= |sys.stream| || sys.stream[sequence].retired then WithPlan(sys, task, [])
    else
      var body := sys.stream[sequence].body;
      if body.Malformed? then WithPlan(sys, task, MalformedPlan(sequence))
      else if body.job !in sys.world.db.jobs then WithPlan(sys, task, InconsistentPlan(sequence, body.job, 1))
      else WithPlan(sys, task, [Advised(sequence, body.job, sys.world.db.jobs[body.job])])
  }

  function FinishTerminalPlan(w: World, sequence: nat, job: JobId, row: JobRow): Plan {
    if MarkerKey(job, row) !in w.db.outbox then [Retire(sequence)]
    else if Marked(w, job, row) then ExhaustedPlan(sequence, job, row.attempts)
    else []
  }

  /** A push: refused when the job is buffered already or the buffer is full. */
  function Pushed(sys: Sys, job: JobId, pending: Pending): Sys {
    if job in sys.buffer || |sys.buffer| == sys.capacity then sys else sys.(buffer := sys.buffer[job := pending])
  }

  function OfferEffect(sys: Sys, task: nat, job: JobId, pending: Pending): Sys {
    if job !in sys.buffer then WithPlan(Pushed(sys, job, pending), task, [])
    else
      var existing := sys.buffer[job];
      if existing.sequence < pending.sequence then
        WithPlan(sys, task, [Retire(existing.sequence), Replace(job, pending.sequence)])
      else if existing.sequence > pending.sequence then WithPlan(sys, task, [Retire(pending.sequence)])
      else WithPlan(sys, task, [])
  }

  function BindOrAckPlan(sys: Sys, job: JobId, guard: Guard, sequence: nat): Plan {
    var bind := [Bind(job, Ack.AckBinding(guard, sequence))];
    match Bound(sys, job, guard)
    case None => bind
    case Some(existing) =>
      if existing.sequence > sequence then [Retire(sequence)]
      else if existing.sequence < sequence then [Retire(existing.sequence)] + bind
      else bind
  }

  /** Confirm, then drop the binding only if it is still the one that was confirmed. */
  function ConfirmPlan(sys: Sys, job: JobId, guard: Guard, cause: AckCause): Plan {
    match Bound(sys, job, guard)
    case None => []
    case Some(existing) => [Retire(existing.sequence), Unbind(job, guard, existing.sequence, cause)]
  }

  function UnbindEffect(sys: Sys, task: nat, job: JobId, guard: Guard, sequence: nat, cause: AckCause): Sys {
    match Bound(sys, job, guard)
    case None => WithPlan(sys, task, [])
    case Some(current) =>
      if current.sequence == sequence then WithPlan(sys.(bindings := sys.bindings - {job}), task, [])
      else WithPlan(sys, task, ConfirmPlan(sys, job, guard, cause))
  }

  function TakeEffect(sys: Sys, task: nat, job: JobId, guard: Guard): Sys {
    match Bound(sys, job, guard)
    case None => WithPlan(sys, task, [])
    case Some(existing) => WithPlan(sys.(bindings := sys.bindings - {job}), task, [Retire(existing.sequence)])
  }

  predicate FinalizeFails(w: World, job: JobId, finish: bool) {
    job in w.seen ==> MoveRefusal(w.db, FinalizeRequest(job, w.seen[job].outcome, finish)).Some?
  }

  function FinalizeEffect(sys: Sys, task: nat, job: JobId, finish: bool, rest: Plan): Sys {
    if FinalizeFails(sys.world, job, finish) then WithPlan(sys, task, [])
    else WithPlan(sys.(world := After(sys.world, DoFinalize(job, finish))), task, if finish then rest else [Refresh(job)] + rest)
  }

  /** What the first effect of a task does, and what is left of its plan. */
  function Execute(sys: Sys, task: nat, effect: Effect, rest: Plan, now: Time): Sys {
    match effect
    case Inspect(sequence) => InspectEffect(sys, task, sequence, now)
    case Review(job, pending) => ReviewEffect(sys, task, job, pending, now)
    case Advise(sequence) => AdviseEffect(sys, task, sequence)
    case Advised(sequence, job, row) =>
      WithPlan(sys, task,
               if sequence < |sys.stream| then AdvisedPlan(sys.world, sequence, sys.stream[sequence].body, job, row) else [])
    case FinishTerminal(sequence, job, row) =>
      WithPlan(sys, task, FinishTerminalPlan(sys.world, sequence, job, row))
    case Offer(job, pending) => OfferEffect(sys, task, job, pending)
    case Replace(job, sequence) =>
      WithPlan(if job in sys.buffer then sys.(buffer := sys.buffer[job := sys.buffer[job].(sequence := sequence)]) else sys,
               task, rest)
    case Dispatch(job, pending) => WithPlan(sys, task, [Requeue(job, pending)])
    case Requeue(job, pending) => WithPlan(Pushed(sys, job, pending), task, [])
    case BindOrAck(job, guard, sequence) => WithPlan(sys, task, BindOrAckPlan(sys, job, guard, sequence))
    case Bind(job, binding) => WithPlan(sys.(bindings := sys.bindings[job := binding]), task, rest)
    case ConfirmAck(job, guard, cause) => WithPlan(sys, task, ConfirmPlan(sys, job, guard, cause))
    case Unbind(job, guard, sequence, cause) => UnbindEffect(sys, task, job, guard, sequence, cause)
    case TakeBound(job, guard) => TakeEffect(sys, task, job, guard)
    case Finalize(job, finish) => FinalizeEffect(sys, task, job, finish, rest)
    case Refresh(job) =>
      WithPlan(sys, task,
               if job in sys.world.db.jobs && sys.world.db.jobs[job].state.CleaningUp? then [Finalize(job, true)] + rest
               else rest)
    case Redrive(sequence, body) => WithPlan(Published(sys, RedriveId(sequence), body), task, rest)
    case Letter(letter) => WithPlan(sys.(world := After(sys.world, DoEnqueue(letter))), task, rest)
    case AwaitPublished(key) =>
      WithPlan(sys, task, if key in sys.world.db.outbox && sys.world.db.outbox[key].published then rest else [])
    case Retire(sequence) => WithPlan(Retired(sys, sequence), task, rest)
  }

  // ----- Steps -----

  datatype Move =
    | Transact(step: Step)
    | PublishQueued(job: JobId)
    | ConfirmLetter(key: OutboxKey)
    | Foreign(body: Body, id: Option<MessageId>)
    | Forget(forgotten: MessageId)
    | UseUp(exhausted: nat)
    | Deliver(task: nat, sequence: nat)
    | Pop(task: nat, job: JobId)
    | AdvisoryArrives(task: nat, sequence: nat)
    | WorkerFinished(task: nat, job: JobId, guard: Guard)
    | CancellationFinalized(task: nat, job: JobId, guard: Guard)
    | ReplayedTerminal(task: nat, job: JobId, guard: Guard, requested: JobState)
    | ExhaustionPublished(task: nat, job: JobId, guard: Guard)
    | Nak(job: JobId, guard: Guard)
    | Perform(task: nat, now: Time)
    | ClaimFor(task: nat, claim: ClaimRequest)
    | LoseAck(task: nat)
    | Abandon(task: nat)
    | Crash(survivors: set<nat>)

  predicate IsIdle(sys: Sys, task: nat) {
    task !in sys.tasks
  }

  predicate HasHead(sys: Sys, task: nat) {
    task in sys.tasks && sys.tasks[task] != []
  }

  predicate IsPublished(w: World, key: OutboxKey) {
    key in w.db.outbox && w.db.outbox[key].published
  }

  predicate Ended(sys: Sys, job: JobId) {
    job in sys.world.db.jobs && sys.world.db.jobs[job].state.Terminal()
  }

  /** Only the publishers use their deduplication ids; a late or repeated publish of theirs counts
      as foreign. */
  predicate HonestId(stream: seq<Message>, id: MessageId, body: Body) {
    match id
    case QueuedId(job) => body.Names? && body.job == job
    case RedriveId(source) => body.Names? && NamesJob(stream, source, body.job)
  }

  predicate CanTransact(sys: Sys, step: Step) {
    && Enabled(sys.world, step)
    && (step.DoCreate? ==> forall i :: 0 <= i < |sys.stream| ==> !NamesJob(sys.stream, i, step.id))
    && (step.DoPublished? ==> step.key in sys.confirmed)
  }

  predicate CanMove(sys: Sys, move: Move) {
    match move
    case Transact(step) => CanTransact(sys, step)
    case PublishQueued(job) => QueuedKey(job) in sys.world.db.outbox && job in sys.world.db.jobs
    case ConfirmLetter(key) => !key.QueuedKey?
    case Foreign(body, id) => id.Some? ==> HonestId(sys.stream, id.value, body)
    case UseUp(sequence) => sequence < |sys.stream|
    case Deliver(task, sequence) => IsIdle(sys, task) && sequence < |sys.stream|
    case Pop(task, job) => IsIdle(sys, task) && job in sys.buffer
    case AdvisoryArrives(task, sequence) => IsIdle(sys, task) && sequence < |sys.stream|
    case WorkerFinished(task, job, guard) =>
      IsIdle(sys, task) && Ended(sys, job) && sys.world.db.jobs[job].worker == Some(guard.worker)
    case CancellationFinalized(task, job, _) =>
      IsIdle(sys, task) && Ended(sys, job) && sys.world.db.jobs[job].state.Cancelled?
    case ReplayedTerminal(task, job, _, requested) =>
      IsIdle(sys, task) && Ended(sys, job) && sys.world.db.jobs[job].state == requested
    case ExhaustionPublished(task, job, _) =>
      IsIdle(sys, task) && Ended(sys, job) && sys.world.db.jobs[job].state.InfraFailed?
      && IsPublished(sys.world, MarkerKey(job, sys.world.db.jobs[job]))
    case Perform(task, _) => HasHead(sys, task)
    case ClaimFor(task, claim) =>
      && HasHead(sys, task) && sys.tasks[task][0].Dispatch? && sys.tasks[task][0].job == claim.job
      && Enabled(sys.world, DoClaim(claim))
    case LoseAck(task) => HasHead(sys, task) && sys.tasks[task][0].Retire?
    case _ => true
  }

  /** The dispatcher claims for a worker and, if that succeeds, binds the delivery to the lease. */
  function Claimed(sys: Sys, task: nat, claim: ClaimRequest, pending: Pending): Sys {
    var sys' := sys.(world := After(sys.world, DoClaim(claim)));
    if ClaimRefusal(sys.world.db, claim).Some? then sys'
    else WithPlan(sys', task, [Bind(claim.job, Ack.AckBinding(Guard(claim.worker, claim.lease), pending.sequence))])
  }

  function Next(sys: Sys, move: Move): Sys
    requires CanMove(sys, move)
  {
    match move
    case Transact(step) => sys.(world := After(sys.world, step))
    case PublishQueued(job) =>
      Published(sys, QueuedId(job), Canonical(job, sys.world.db.jobs[job])).(confirmed := sys.confirmed + {QueuedKey(job)})
    case ConfirmLetter(key) => sys.(confirmed := sys.confirmed + {key})
    case Foreign(body, id) =>
      if id.Some? then Published(sys, id.value, body) else sys.(stream := sys.stream + [Message(body, false)])
    case Forget(id) => sys.(ids := sys.ids - {id})
    case UseUp(sequence) => sys.(spent := sys.spent + {sequence})
    case Deliver(task, sequence) => WithPlan(sys, task, [Inspect(sequence)])
    case Pop(task, job) =>
      WithPlan(sys.(buffer := sys.buffer - {job}), task, [Review(job, sys.buffer[job])])
    case AdvisoryArrives(task, sequence) => WithPlan(sys, task, [Advise(sequence)])
    case WorkerFinished(task, job, guard) => WithPlan(sys, task, [ConfirmAck(job, guard, FromWorker)])
    case CancellationFinalized(task, job, guard) => WithPlan(sys, task, [ConfirmAck(job, guard, FromReconciler)])
    case ReplayedTerminal(task, job, guard, _) => WithPlan(sys, task, [ConfirmAck(job, guard, FromReplay)])
    case ExhaustionPublished(task, job, guard) => WithPlan(sys, task, [TakeBound(job, guard)])
    case Nak(job, guard) => if Bound(sys, job, guard).Some? then sys.(bindings := sys.bindings - {job}) else sys
    case Perform(task, now) => Execute(sys, task, sys.tasks[task][0], sys.tasks[task][1..], now)
    case ClaimFor(task, claim) => Claimed(sys, task, claim, sys.tasks[task][0].pending)
    case LoseAck(task) => WithPlan(sys, task, sys.tasks[task][1..])
    case Abandon(task) => sys.(tasks := sys.tasks - {task})
    case Crash(survivors) =>
      sys.(buffer := map[], bindings := map[], tasks := map t | t in sys.tasks && t in survivors :: sys.tasks[t])
  }

  predicate Fresh(sys: Sys) {
    && EmptyWorld(sys.world) && sys.stream == [] && sys.ids == map[] && sys.confirmed == {}
    && sys.buffer == map[] && sys.bindings == map[] && sys.tasks == map[]
    && sys.capacity > 0 && sys.spent == {}
  }

  ghost predicate History(states: seq<Sys>, moves: seq<Move>) {
    && |states| == |moves| + 1
    && Fresh(states[0])
    && forall i {:trigger moves[i]} :: 0 <= i < |moves| ==>
         CanMove(states[i], moves[i]) && states[i + 1] == Next(states[i], moves[i])
  }
}
