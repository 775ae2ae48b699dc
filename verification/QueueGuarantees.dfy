/** The promises of the work queue, over whole histories. */
module QueueGuarantees {
  import opened Base
  import opened Lifecycle
  import opened DeadLetters
  import opened Store
  import opened Runs
  import opened Invariant
  import opened Delivery
  import opened QueueProtocol
  import opened QueueSafety
  import Ack = Acknowledgements

  // ----- One move -----

  /** The transaction that a move runs, if any. */
  function StepOf(sys: Sys, move: Move): Option<Step> {
    match move
    case Transact(step) => Some(step)
    case ClaimFor(_, claim) => Some(DoClaim(claim))
    case Perform(task, _) =>
      if !HasHead(sys, task) then None
      else
        (match sys.tasks[task][0]
         case Inspect(sequence) =>
           if sequence < |sys.stream| && sys.stream[sequence].body.Names?
             && sys.stream[sequence].body.job in sys.world.db.jobs then
             Some(DoObserve(sys.stream[sequence].body.job))
           else None
         case Review(job, _) => if job in sys.world.db.jobs then Some(DoObserve(job)) else None
         case Finalize(job, finish) =>
           if FinalizeFails(sys.world, job, finish) then None else Some(DoFinalize(job, finish))
         case Letter(letter) => Some(DoEnqueue(letter))
         case _ => None)
    case _ => None
  }

  /** Every move runs at most one transaction, called as the system calls it. */
  lemma MoveIsStep(sys: Sys, move: Move)
    requires TasksOk(sys.world, sys.stream, sys.tasks) && CanMove(sys, move)
    ensures StepOf(sys, move).None? ==> Next(sys, move).world == sys.world
    ensures StepOf(sys, move).Some? ==>
      Enabled(sys.world, StepOf(sys, move).value) && Next(sys, move).world == After(sys.world, StepOf(sys, move).value)
  {
    if move.Perform? {
      var plan := sys.tasks[move.task];
      EffectIsStep(sys, move.task, plan, move.now);
    }
  }

  lemma EffectIsStep(sys: Sys, task: nat, plan: Plan, now: Time)
    requires plan != [] && PlanOk(sys.world, sys.stream, plan) && task in sys.tasks && sys.tasks[task] == plan
    ensures var step := StepOf(sys, Perform(task, now));
      && (step.None? ==> Execute(sys, task, plan[0], plan[1..], now).world == sys.world)
      && (step.Some? ==>
            Enabled(sys.world, step.value)
            && Execute(sys, task, plan[0], plan[1..], now).world == After(sys.world, step.value))
  {
    assert EffectOk(sys.world, sys.stream, plan[0]);
  }

  lemma PublishQueuedKeeps(sys: Sys, job: JobId)
    requires QueueOk(sys) && CanMove(sys, PublishQueued(job))
    ensures QueueOk(Next(sys, PublishQueued(job)))
  {
    PublishKeepsQueue(sys, QueuedId(job), Canonical(job, sys.world.db.jobs[job]));
    var sys' := Published(sys, QueuedId(job), Canonical(job, sys.world.db.jobs[job]));
    assert IdOk(sys'.stream, QueuedId(job), sys'.ids[QueuedId(job)]);
    assert InStream(sys'.stream, job);
  }

  /** A handler starts. */
  lemma StartKeeps(sys: Sys, move: Move)
    requires QueueOk(sys) && CanMove(sys, move) && (move.Pop? || move.WorkerFinished?
      || move.CancellationFinalized? || move.ReplayedTerminal? || move.ExhaustionPublished?)
    requires MarkersOk(sys.world) && (move.job in sys.world.db.jobs ==> RowPlain(sys.world.db.jobs[move.job]))
    ensures QueueOk(Next(sys, move))
  {
    match move
    case Pop(task, job) =>
      SingleIsOk(sys.world, sys.stream, Review(job, sys.buffer[job]));
      PlanKeepsQueue(sys.(buffer := sys.buffer - {job}), task, [Review(job, sys.buffer[job])]);
    case WorkerFinished(task, job, guard) =>
      OwnedAreUnmarked(sys.world, job);
      StartConfirmKeeps(sys, task, job, guard, FromWorker);
    case CancellationFinalized(task, job, guard) =>
      OthersAreUnmarked(sys.world, job);
      StartConfirmKeeps(sys, task, job, guard, FromReconciler);
    case ReplayedTerminal(task, job, guard, _) =>
      StartConfirmKeeps(sys, task, job, guard, FromReplay);
    case ExhaustionPublished(task, job, guard) =>
      PublishedIsConfirmed(sys.world, job);
      SingleIsOk(sys.world, sys.stream, TakeBound(job, guard));
      PlanKeepsQueue(sys, task, [TakeBound(job, guard)]);
  }

  lemma StartConfirmKeeps(sys: Sys, task: nat, job: JobId, guard: Guard, cause: AckCause)
    requires QueueOk(sys) && EffectOk(sys.world, sys.stream, ConfirmAck(job, guard, cause))
    ensures QueueOk(WithPlan(sys, task, [ConfirmAck(job, guard, cause)]))
  {
    SingleIsOk(sys.world, sys.stream, ConfirmAck(job, guard, cause));
    PlanKeepsQueue(sys, task, [ConfirmAck(job, guard, cause)]);
  }

  lemma PublishedIsConfirmed(w: World, job: JobId)
    requires MarkersOk(w) && job in w.db.jobs && IsPublished(w, MarkerKey(job, w.db.jobs[job]))
    ensures ExhaustionConfirmed(w, job)
  {}

  lemma ClaimKeeps(sys: Sys, task: nat, claim: ClaimRequest)
    requires WorldOk(sys.world) && QueueOk(sys) && CanMove(sys, ClaimFor(task, claim))
    ensures QueueOk(Next(sys, ClaimFor(task, claim)))
  {
    var pending := sys.tasks[task][0].pending;
    assert EffectOk(sys.world, sys.stream, sys.tasks[task][0]);
    var bind := Bind(claim.job, Ack.AckBinding(Guard(claim.worker, claim.lease), pending.sequence));
    SingleIsOk(sys.world, sys.stream, bind);
    TransactKeepsQueue(sys, DoClaim(claim));
    TransactThenPlan(sys, DoClaim(claim), task, [bind]);
  }

  /** Messages come and go, handlers stop, memory is lost. */
  lemma EnvironmentKeeps(sys: Sys, move: Move)
    requires QueueOk(sys) && CanMove(sys, move)
    requires move.ConfirmLetter? || move.Foreign? || move.Forget? || move.UseUp? || move.Deliver? || move.AdvisoryArrives?
      || move.Nak? || move.LoseAck? || move.Abandon? || move.Crash?
    ensures QueueOk(Next(sys, move))
  {
    match move
    case Foreign(body, id) =>
      if id.Some? { PublishKeepsQueue(sys, id.value, body); } else { AppendKeepsQueue(sys, body); }
    case Deliver(task, sequence) =>
      SingleIsOk(sys.world, sys.stream, Inspect(sequence));
      PlanKeepsQueue(sys, task, [Inspect(sequence)]);
    case AdvisoryArrives(task, sequence) =>
      SingleIsOk(sys.world, sys.stream, Advise(sequence));
      PlanKeepsQueue(sys, task, [Advise(sequence)]);
    case LoseAck(task) =>
      PlainRestIsOk(sys.world, sys.stream, sys.tasks[task]);
      PlanKeepsQueue(sys, task, sys.tasks[task][1..]);
    case Nak(job, guard) => UnboundKeeps(sys, job);
    case _ =>
  }

  lemma StartsKeep(sys: Sys, move: Move)
    requires WorldOk(sys.world) && QueueOk(sys) && CanMove(sys, move)
    requires move.Pop? || move.WorkerFinished? || move.CancellationFinalized? || move.ReplayedTerminal? || move.ExhaustionPublished?
    ensures QueueOk(Next(sys, move))
  {
    MarkersAreOk(sys.world);
    if move.job in sys.world.db.jobs { RowsArePlain(sys.world, move.job); }
    StartKeeps(sys, move);
  }

  lemma MoveKeepsQueue(sys: Sys, move: Move)
    requires WorldOk(sys.world) && QueueOk(sys) && CanMove(sys, move)
    ensures QueueOk(Next(sys, move))
  {
    match move
    case Transact(step) => TransactKeepsQueue(sys, step);
    case PublishQueued(job) => PublishQueuedKeeps(sys, job);
    case Perform(task, now) => EffectKeepsQueue(sys, task, sys.tasks[task], now);
    case ClaimFor(task, claim) => ClaimKeeps(sys, task, claim);
    case Pop(_, job) => StartsKeep(sys, move);
    case WorkerFinished(_, _, _) => StartsKeep(sys, move);
    case CancellationFinalized(_, _, _) => StartsKeep(sys, move);
    case ReplayedTerminal(_, _, _, _) => StartsKeep(sys, move);
    case ExhaustionPublished(_, _, _) => StartsKeep(sys, move);
    case _ => EnvironmentKeeps(sys, move);
  }

  // ----- Histories -----

  lemma FreshIsOk(sys: Sys)
    requires Fresh(sys)
    ensures WorldOk(sys.world) && QueueOk(sys)
  {
    EmptyWorldIsOk(sys.world);
  }

  lemma {:induction false} HistoriesAreOk(states: seq<Sys>, moves: seq<Move>, n: nat)
    requires History(states, moves) && n <= |moves|
    ensures WorldOk(states[n].world) && QueueOk(states[n])
  {
    if n == 0 {
      FreshIsOk(states[0]);
    } else {
      var sys, move := states[n - 1], moves[n - 1];
      HistoriesAreOk(states, moves, n - 1);
      assert CanMove(sys, move) && states[n] == Next(sys, move);
      MoveKeepsQueue(sys, move);
      MoveIsStep(sys, move);
      if StepOf(sys, move).Some? { StepKeepsOk(sys.world, StepOf(sys, move).value); }
    }
  }

  /** The database of every history goes through a run, so whatever holds of runs holds here. */
  lemma {:induction false} HistoryIsARun(states: seq<Sys>, moves: seq<Move>, n: nat)
    returns (worlds: seq<World>, steps: seq<Step>)
    requires History(states, moves) && n <= |moves|
    ensures Run(worlds, steps) && worlds[|steps|] == states[n].world
  {
    if n == 0 {
      worlds, steps := [states[0].world], [];
    } else {
      var sys, move := states[n - 1], moves[n - 1];
      var worlds0, steps0 := HistoryIsARun(states, moves, n - 1);
      HistoriesAreOk(states, moves, n - 1);
      assert CanMove(sys, move) && states[n] == Next(sys, move);
      MoveIsStep(sys, move);
      if StepOf(sys, move).Some? {
        worlds, steps := worlds0 + [states[n].world], steps0 + [StepOf(sys, move).value];
        RunExtends(worlds0, steps0, StepOf(sys, move).value);
      } else {
        worlds, steps := worlds0, steps0;
      }
    }
  }

  // ----- No runnable job is lost -----

  ghost predicate Highest(stream: seq<Message>, i: nat, job: JobId) {
    NamesJob(stream, i, job) && forall k :: i < k ==> !NamesJob(stream, k, job)
  }

  lemma {:induction false} HighestExists(stream: seq<Message>, job: JobId, i: nat) returns (top: nat)
    requires NamesJob(stream, i, job)
    ensures Highest(stream, top, job)
    decreases |stream| - i
  {
    if k :| i < k && NamesJob(stream, k, job) {
      top := HighestExists(stream, job, k);
    } else {
      top := i;
    }
  }

  /** In every history, while a job is queued or holds a lease, either its queue row is still to be
      published or the highest message that names it has not been retired. */
  lemma NoRunnableJobIsLost(states: seq<Sys>, moves: seq<Move>, n: nat, job: JobId)
    requires History(states, moves) && n <= |moves|
    requires job in states[n].world.db.jobs
    requires states[n].world.db.jobs[job].state.Queued? || states[n].world.db.jobs[job].lease.Some?
    ensures QueuedKey(job) in states[n].world.db.outbox
    ensures
      || !states[n].world.db.outbox[QueuedKey(job)].published
      || exists i: nat :: Highest(states[n].stream, i, job) && !states[n].stream[i].retired
  {
    HistoriesAreOk(states, moves, n);
    QueueRowExists(states[n].world, job);
    RowsArePlain(states[n].world, job);
    if states[n].world.db.outbox[QueuedKey(job)].published { PublishedJobIsDeliverable(states[n], job); }
  }

  lemma QueueRowExists(w: World, job: JobId)
    requires OutboxOk(w) && job in w.db.jobs
    ensures QueuedKey(job) in w.db.outbox
  {}

  lemma PublishedJobIsDeliverable(sys: Sys, job: JobId)
    requires ConfirmedOk(sys.world, sys.stream, sys.confirmed) && RetiredOk(sys.world, sys.stream)
    requires job in sys.world.db.jobs && !Settled(sys.world.db.jobs[job]) && RowPlain(sys.world.db.jobs[job])
    requires IsPublished(sys.world, QueuedKey(job))
    ensures exists i: nat :: Highest(sys.stream, i, job) && !sys.stream[i].retired
  {
    assert InStream(sys.stream, job);
    var i :| NamesJob(sys.stream, i, job);
    var top := HighestExists(sys.stream, job, i);
    RunnableTopIsKept(sys.world, sys.stream, top, job);
  }

  lemma RunnableTopIsKept(w: World, stream: seq<Message>, top: nat, job: JobId)
    requires RetiredOk(w, stream) && Highest(stream, top, job) && job in w.db.jobs && !Settled(w.db.jobs[job])
    requires RowPlain(w.db.jobs[job])
    ensures !stream[top].retired
  {
    assert PoisonKey(w, stream, top).None? && !Superseded(stream, top, job);
  }

  // ----- Every retirement has a cause -----

  lemma RetirementIsPerformed(sys: Sys, move: Move, i: nat)
    requires CanMove(sys, move) && i < |sys.stream| && !sys.stream[i].retired
    requires i < |Next(sys, move).stream| && Next(sys, move).stream[i].retired
    ensures move.Perform? && sys.tasks[move.task][0] == Retire(i)
  {
    if move.Perform? {
      EffectRetires(sys, move.task, sys.tasks[move.task][0], sys.tasks[move.task][1..], move.now, i);
    }
  }

  lemma EffectRetires(sys: Sys, task: nat, effect: Effect, rest: Plan, now: Time, i: nat)
    requires i < |sys.stream| && !sys.stream[i].retired
    ensures i < |Execute(sys, task, effect, rest, now).stream|
    ensures Execute(sys, task, effect, rest, now).stream[i].retired ==> effect == Retire(i)
  {
    if !effect.Retire? && !effect.Redrive? { QuietEffect(sys, task, effect, rest, now); }
  }

  lemma QuietEffect(sys: Sys, task: nat, effect: Effect, rest: Plan, now: Time)
    requires !effect.Retire? && !effect.Redrive?
    ensures Execute(sys, task, effect, rest, now).stream == sys.stream
  {
    if effect.Inspect? || effect.Review? {
      QuietDelivery(sys, task, effect, rest, now);
    } else {
      QuietRest(sys, task, effect, rest, now);
    }
  }

  lemma QuietDelivery(sys: Sys, task: nat, effect: Effect, rest: Plan, now: Time)
    requires effect.Inspect? || effect.Review?
    ensures Execute(sys, task, effect, rest, now).stream == sys.stream
  {}

  lemma QuietRest(sys: Sys, task: nat, effect: Effect, rest: Plan, now: Time)
    requires !effect.Retire? && !effect.Redrive? && !effect.Inspect? && !effect.Review?
    ensures Execute(sys, task, effect, rest, now).stream == sys.stream
  {}

  /** A message is acknowledged, terminated or deleted only when its dead letter is published (if it
      names no job), or its job is over and no dead letter of it is unpublished, or a higher message
      names the job; or else by a replayed terminal transition, for a terminal job. */
  lemma RetirementsAreJustified(states: seq<Sys>, moves: seq<Move>, n: nat, i: nat)
    requires History(states, moves) && n < |moves|
    requires i < |states[n].stream| && !states[n].stream[i].retired
    requires i < |states[n + 1].stream| && states[n + 1].stream[i].retired
    ensures Excused(states[n].world, states[n].stream, i)
    ensures Cleared(states[n].world, states[n].stream, i) || exists job :: AcksReplay(states[n], moves[n], i, job)
  {
    HistoriesAreOk(states, moves, n);
    assert CanMove(states[n], moves[n]) && states[n + 1] == Next(states[n], moves[n]);
    RetirementIsPerformed(states[n], moves[n], i);
    PerformedRetirementIsExcused(states[n], moves[n]);
  }

  /** In full, for a message about a job of the database: the job is terminal, or its dead letter is
      published, or a higher message names it; and this holds ever after. */
  lemma RetirementHasCause(states: seq<Sys>, moves: seq<Move>, n: nat, i: nat, job: JobId)
    requires History(states, moves) && n <= |moves|
    requires NamesJob(states[n].stream, i, job) && states[n].stream[i].retired && job in states[n].world.db.jobs
    ensures
      || states[n].world.db.jobs[job].state.Terminal()
      || IsPublished(states[n].world, ExhaustedKey(job, states[n].world.maxAttempts))
      || exists k :: i < k && NamesJob(states[n].stream, k, job)
  {
    HistoriesAreOk(states, moves, n);
    RetiredMessagesStayExcused(states, moves, n, i);
    if !Superseded(states[n].stream, i, job) { OverIsRecorded(states[n].world, job); }
  }

  lemma OverIsRecorded(w: World, job: JobId)
    requires OutboxOk(w) && (IsEnded(w, job) || (IsOver(w, job) && ExhaustionConfirmed(w, job)))
    ensures w.db.jobs[job].state.Terminal() || IsPublished(w, ExhaustedKey(job, w.maxAttempts))
  {
    assert w.db.jobs[job].state.Terminal() || AwaitsFailure(w.db.jobs[job]);
  }

  lemma PerformedRetirementIsExcused(sys: Sys, move: Move)
    requires TasksOk(sys.world, sys.stream, sys.tasks)
    requires move.Perform? && HasHead(sys, move.task) && sys.tasks[move.task][0].Retire?
    ensures var i := sys.tasks[move.task][0].sequence;
      && Excused(sys.world, sys.stream, i)
      && (Cleared(sys.world, sys.stream, i) || exists job :: AcksReplay(sys, move, i, job))
  {
    var plan := sys.tasks[move.task];
    HeadRetirementIsExcused(sys.world, sys.stream, plan);
    if !Cleared(sys.world, sys.stream, plan[0].sequence) {
      assert RetirementOk(sys.world, sys.stream, plan, 0);
      assert plan == [Retire(plan[0].sequence), Unbind(plan[1].job, plan[1].guard, plan[0].sequence, FromReplay)];
      assert AcksReplay(sys, move, plan[0].sequence, plan[1].job);
    }
  }

  lemma RetiredMessagesStayExcused(states: seq<Sys>, moves: seq<Move>, n: nat, i: nat)
    requires History(states, moves) && n <= |moves|
    requires i < |states[n].stream| && states[n].stream[i].retired
    ensures Excused(states[n].world, states[n].stream, i)
  {
    HistoriesAreOk(states, moves, n);
    assert RetiredOk(states[n].world, states[n].stream);
  }

  /** A poison message leaves the stream only after its dead letter is confirmed. */
  lemma PoisonIsRecorded(states: seq<Sys>, moves: seq<Move>, n: nat, i: nat)
    requires History(states, moves) && n <= |moves|
    requires i < |states[n].stream| && states[n].stream[i].retired
    ensures states[n].stream[i].body.Malformed? ==> IsPublished(states[n].world, MalformedKey(i + 1))
    ensures states[n].stream[i].body.Names? && states[n].stream[i].body.job !in states[n].world.db.jobs ==>
      IsPublished(states[n].world, InconsistentKey(i + 1))
  {
    RetiredMessagesStayExcused(states, moves, n, i);
  }

  /** A queue row is marked published only when the stream has a message about its job. */
  lemma PublishedRowsAreInStream(states: seq<Sys>, moves: seq<Move>, n: nat, job: JobId)
    requires History(states, moves) && n <= |moves| && IsPublished(states[n].world, QueuedKey(job))
    ensures exists i :: NamesJob(states[n].stream, i, job)
  {
    HistoriesAreOk(states, moves, n);
    assert ConfirmedOk(states[n].world, states[n].stream, states[n].confirmed);
    assert InStream(states[n].stream, job);
  }

  // ----- Exhausted jobs -----

  /** The job was exhausted and its dead letter is still unpublished. */
  predicate Unconfirmed(w: World, job: JobId) {
    && job in w.db.jobs
    && ExhaustedKey(job, w.maxAttempts) in w.db.outbox && !w.db.outbox[ExhaustedKey(job, w.maxAttempts)].published
  }

  /** The second half of a replayed terminal transition that found this delivery bound to its lease. */
  ghost predicate AcksReplay(sys: Sys, move: Move, i: nat, job: JobId) {
    && move.Perform? && HasHead(sys, move.task)
    && exists guard :: sys.tasks[move.task] == [Retire(i), Unbind(job, guard, i, FromReplay)]
  }

  /** Exactly one kind of handler retires the last message of an exhausted job before the dead
      letter is published: the acknowledgement of a replayed terminal transition whose lease still
      has the delivery bound.  Every other handler waits for the publication. */
  lemma EarlyRetirementIsReplay(states: seq<Sys>, moves: seq<Move>, n: nat, i: nat, job: JobId)
    requires History(states, moves) && n < |moves|
    requires Highest(states[n].stream, i, job) && !states[n].stream[i].retired && Unconfirmed(states[n].world, job)
    ensures i < |states[n + 1].stream|
    ensures states[n + 1].stream[i].retired <==> AcksReplay(states[n], moves[n], i, job)
    ensures AcksReplay(states[n], moves[n], i, job) ==> states[n].world.db.jobs[job].state.InfraFailed?
  {
    HistoriesAreOk(states, moves, n);
    MarkersAreOk(states[n].world);
    RowsArePlain(states[n].world, job);
    assert CanMove(states[n], moves[n]) && states[n + 1] == Next(states[n], moves[n]);
    EarlyMoveIsReplay(states[n], moves[n], i, job);
  }

  lemma EarlyMoveIsReplay(sys: Sys, move: Move, i: nat, job: JobId)
    requires TasksOk(sys.world, sys.stream, sys.tasks) && MarkersOk(sys.world) && CanMove(sys, move)
    requires Highest(sys.stream, i, job) && !sys.stream[i].retired && Unconfirmed(sys.world, job)
    requires RowPlain(sys.world.db.jobs[job])
    ensures i < |Next(sys, move).stream|
    ensures Next(sys, move).stream[i].retired <==> AcksReplay(sys, move, i, job)
    ensures AcksReplay(sys, move, i, job) ==> sys.world.db.jobs[job].state.InfraFailed?
  {
    MessagesStay(sys, move, i);
    if Next(sys, move).stream[i].retired {
      RetirementIsPerformed(sys, move, i);
      OnlyReplaysAreEarly(sys, move.task, i, job);
    }
    if AcksReplay(sys, move, i, job) {
      ReplaysEndInFailure(sys, move.task, job);
      AckRetires(sys, move, i);
    }
  }

  lemma AckRetires(sys: Sys, move: Move, i: nat)
    requires CanMove(sys, move) && move.Perform? && sys.tasks[move.task][0] == Retire(i) && i < |sys.stream|
    ensures i < |Next(sys, move).stream| && Next(sys, move).stream[i].retired
  {}

  lemma MessagesStay(sys: Sys, move: Move, i: nat)
    requires CanMove(sys, move) && i < |sys.stream|
    ensures i < |Next(sys, move).stream|
  {
    if move.Perform? {
      var effect := sys.tasks[move.task][0];
      if !effect.Retire? && !effect.Redrive? { QuietEffect(sys, move.task, effect, sys.tasks[move.task][1..], move.now); }
    }
  }

  lemma OnlyReplaysAreEarly(sys: Sys, task: nat, i: nat, job: JobId)
    requires TasksOk(sys.world, sys.stream, sys.tasks) && HasHead(sys, task) && sys.tasks[task][0] == Retire(i)
    requires Highest(sys.stream, i, job) && Unconfirmed(sys.world, job)
    ensures exists guard :: sys.tasks[task] == [Retire(i), Unbind(job, guard, i, FromReplay)]
  {
    var plan := sys.tasks[task];
    assert RetirementOk(sys.world, sys.stream, plan, 0);
    assert !Cleared(sys.world, sys.stream, i);
    assert plan == [Retire(i), Unbind(job, plan[1].guard, i, FromReplay)];
  }

  lemma ReplaysEndInFailure(sys: Sys, task: nat, job: JobId)
    requires TasksOk(sys.world, sys.stream, sys.tasks) && MarkersOk(sys.world) && Unconfirmed(sys.world, job)
    requires RowPlain(sys.world.db.jobs[job])
    requires task in sys.tasks && |sys.tasks[task]| == 2 && sys.tasks[task][1].Unbind? && sys.tasks[task][1].job == job
    ensures sys.world.db.jobs[job].state.InfraFailed?
  {
    assert EffectOk(sys.world, sys.stream, sys.tasks[task][1]);
    assert Exhausted(sys.world, job);
  }
}
