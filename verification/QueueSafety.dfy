/** No runnable job is lost, and nothing is acknowledged without cause. */
module QueueSafety {
  import opened Base
  import opened Lifecycle
  import opened DeadLetters
  import opened Store
  import opened Runs
  import opened Invariant
  import opened Delivery
  import opened QueueProtocol
  import Ack = Acknowledgements

  // ----- Why a message may be retired -----

  /** A row that is terminal, or exhausted and waiting to become so. */
  predicate RowOver(row: JobRow) {
    row.state.Terminal() || (Settled(row) && row.pending == Some(JobOutcome.InfraFailed))
  }

  predicate IsOver(w: World, job: JobId) {
    job in w.db.jobs && RowOver(w.db.jobs[job])
  }

  predicate IsEnded(w: World, job: JobId) {
    job in w.db.jobs && w.db.jobs[job].state.Terminal()
  }

  /** The exhaustion of the job, if it was exhausted, is published. */
  predicate ExhaustionConfirmed(w: World, job: JobId) {
    ExhaustedKey(job, w.maxAttempts) in w.db.outbox ==> IsPublished(w, ExhaustedKey(job, w.maxAttempts))
  }

  /** Exhaustion rows belong to exhausted jobs and carry the permitted maximum. */
  ghost predicate MarkersOk(w: World) {
    w.maxAttempts > 0
    && forall j, a :: ExhaustedKey(j, a) in w.db.outbox ==> a == w.maxAttempts && Exhausted(w, j)
  }

  /** A job cancelled without a lease, at least as far along as `rank`. */
  predicate IsCancelling(w: World, job: JobId, rank: nat) {
    && job in w.db.jobs && Settled(w.db.jobs[job]) && w.db.jobs[job].pending == Some(JobOutcome.Cancelled)
    && rank <= w.db.jobs[job].state.Rank()
  }

  /** The dead letter owed for a message that names no job of the database. */
  function PoisonKey(w: World, stream: seq<Message>, i: nat): Option<OutboxKey>
    requires i < |stream|
  {
    if stream[i].body.Malformed? then Some(MalformedKey(i + 1))
    else if stream[i].body.job !in w.db.jobs then Some(InconsistentKey(i + 1))
    else None
  }

  /** A higher sequence names the same job. */
  ghost predicate Superseded(stream: seq<Message>, i: nat, job: JobId) {
    exists k :: i < k && NamesJob(stream, k, job)
  }

  ghost predicate Excused(w: World, stream: seq<Message>, i: nat) {
    && i < |stream|
    && match PoisonKey(w, stream, i)
       case Some(key) => IsPublished(w, key)
       case None =>
         || Superseded(stream, i, stream[i].body.job)
         || IsEnded(w, stream[i].body.job)
         || (IsOver(w, stream[i].body.job) && ExhaustionConfirmed(w, stream[i].body.job))
  }

  /** Excused, and not before the exhaustion of its job is published. */
  ghost predicate Cleared(w: World, stream: seq<Message>, i: nat) {
    && i < |stream|
    && match PoisonKey(w, stream, i)
       case Some(key) => IsPublished(w, key)
       case None =>
         || Superseded(stream, i, stream[i].body.job)
         || (IsOver(w, stream[i].body.job) && ExhaustionConfirmed(w, stream[i].body.job))
  }

  // ----- What never goes back -----

  ghost predicate StreamGrows(stream: seq<Message>, stream': seq<Message>) {
    && |stream| <= |stream'|
    && forall i :: 0 <= i < |stream| ==>
         stream'[i].body == stream[i].body && (stream[i].retired ==> stream'[i].retired)
  }

  /** Jobs stay, what is over stays over, cancellation only proceeds, published rows stay published,
      and no job is created under an id that a message already names. */
  ghost predicate WorldGrows(w: World, w': World, stream: seq<Message>) {
    && (forall j :: j in w.db.jobs ==> j in w'.db.jobs)
    && w'.maxAttempts == w.maxAttempts
    && (forall j :: IsOver(w, j) ==> IsOver(w', j))
    && (forall j :: IsOver(w, j) && ExhaustionConfirmed(w, j) ==> ExhaustionConfirmed(w', j))
    && (forall j :: IsEnded(w, j) ==> j in w'.db.jobs && w'.db.jobs[j] == w.db.jobs[j])
    && (forall j, rank :: IsCancelling(w, j, rank) ==> IsCancelling(w', j, rank))
    && (forall key :: key in w.db.outbox ==> key in w'.db.outbox)
    && (forall key :: IsPublished(w, key) ==> IsPublished(w', key))
    && (forall i, j :: NamesJob(stream, i, j) && j !in w.db.jobs ==> j !in w'.db.jobs)
  }

  lemma ExcusedForGood(w: World, stream: seq<Message>, w': World, stream': seq<Message>, i: nat)
    requires StreamGrows(stream, stream') && WorldGrows(w, w', stream) && Excused(w, stream, i)
    ensures Excused(w', stream', i)
  {
    if stream[i].body.Names? {
      var job := stream[i].body.job;
      assert NamesJob(stream, i, job);
      if PoisonKey(w, stream, i).None? && Superseded(stream, i, job) {
        var k :| i < k && NamesJob(stream, k, job);
        assert NamesJob(stream', k, job);
      }
    }
  }

  lemma ClearedForGood(w: World, stream: seq<Message>, w': World, stream': seq<Message>, i: nat)
    requires StreamGrows(stream, stream') && WorldGrows(w, w', stream) && Cleared(w, stream, i)
    ensures Cleared(w', stream', i)
  {
    if stream[i].body.Names? {
      var job := stream[i].body.job;
      assert NamesJob(stream, i, job);
      if PoisonKey(w, stream, i).None? && Superseded(stream, i, job) {
        var k :| i < k && NamesJob(stream, k, job);
        assert NamesJob(stream', k, job);
      }
    }
  }

  lemma PoisonKeyForGood(w: World, stream: seq<Message>, w': World, stream': seq<Message>, i: nat)
    requires StreamGrows(stream, stream') && WorldGrows(w, w', stream) && i < |stream|
    ensures PoisonKey(w', stream', i) == PoisonKey(w, stream, i)
  {
    if stream[i].body.Names? { assert NamesJob(stream, i, stream[i].body.job); }
  }

  // ----- Plans -----

  /** After this effect, the message is cleared. */
  ghost predicate Excuses(w: World, stream: seq<Message>, effect: Effect, i: nat) {
    && i < |stream|
    && match effect
       case Redrive(sequence, _) => sequence == i
       case AwaitPublished(key) =>
         || PoisonKey(w, stream, i) == Some(key)
         || (PoisonKey(w, stream, i).None? && IsOver(w, stream[i].body.job)
             && key == ExhaustedKey(stream[i].body.job, w.maxAttempts))
       case Finalize(job, _) => Owns(w, stream, i, job)
       case Refresh(job) => Owns(w, stream, i, job)
       case _ => false
  }

  predicate RowPlain(row: JobRow) {
    && (row.state.Queued? ==> row.pending.None?)
    && (row.state.Terminal() ==> row.lease.None?)
    && (row.state.Terminal() ==> row.pending == row.state.TerminalOutcome())
    && (row.lease.Some? ==> row.worker.Some?)
    && (Settled(row) ==> 7 <= row.state.Rank())
  }

  ghost predicate Owns(w: World, stream: seq<Message>, sequence: nat, job: JobId) {
    NamesJob(stream, sequence, job) && job in w.db.jobs
  }

  predicate LetterOk(w: World, letter: DeadLetter) {
    letter.reason.AttemptsExhausted? && letter.job.Some? ==> ExhaustedKey(letter.job.value, letter.attempt) in w.db.outbox
  }

  /** What a handler relies on when it comes to an effect, other than a retirement. */
  ghost predicate EffectOk(w: World, stream: seq<Message>, effect: Effect) {
    match effect
    case Inspect(sequence) => sequence < |stream|
    case Advise(sequence) => sequence < |stream|
    case Review(job, pending) => NamesJob(stream, pending.sequence, job)
    case Offer(job, pending) => Owns(w, stream, pending.sequence, job)
    case Replace(job, sequence) => NamesJob(stream, sequence, job)
    case Dispatch(job, pending) => NamesJob(stream, pending.sequence, job)
    case Requeue(job, pending) => NamesJob(stream, pending.sequence, job)
    case BindOrAck(job, _, sequence) => Owns(w, stream, sequence, job)
    case Bind(job, binding) => NamesJob(stream, binding.sequence, job)
    case Advised(sequence, job, row) =>
      && Owns(w, stream, sequence, job) && RowPlain(row) && (RowOver(row) ==> IsOver(w, job))
      && (row.state.Terminal() ==> row == w.db.jobs[job])
    case FinishTerminal(sequence, job, row) =>
      NamesJob(stream, sequence, job) && IsEnded(w, job) && row == w.db.jobs[job]
    case ConfirmAck(job, _, cause) => IsEnded(w, job) && (cause.FromReplay? || ExhaustionConfirmed(w, job))
    case Unbind(job, _, _, cause) => IsEnded(w, job) && (cause.FromReplay? || ExhaustionConfirmed(w, job))
    case TakeBound(job, _) => IsEnded(w, job) && ExhaustionConfirmed(w, job)
    case Redrive(sequence, body) => body.Names? && Owns(w, stream, sequence, body.job)
    case Letter(letter) => LetterOk(w, letter)
    case Finalize(job, _) => IsCancelling(w, job, 7)
    case Refresh(job) => IsCancelling(w, job, 8)
    case _ => true
  }

  /** The acknowledgement that a replayed terminal transition sends for the delivery it found bound. */
  predicate IsReplay(stream: seq<Message>, plan: Plan, k: nat) {
    && k == 0 && |plan| == 2 && plan[0].Retire? && plan[1].Unbind? && plan[1].cause.FromReplay?
    && plan[1].sequence == plan[0].sequence && NamesJob(stream, plan[0].sequence, plan[1].job)
  }

  /** A retirement in a plan is cleared already or by an earlier effect of the same plan, or else it
      is the excused retirement of a replayed terminal transition. */
  ghost predicate RetirementOk(w: World, stream: seq<Message>, plan: Plan, k: nat)
    requires k < |plan|
  {
    plan[k].Retire? ==>
      || Cleared(w, stream, plan[k].sequence)
      || (exists m :: 0 <= m < k && Excuses(w, stream, plan[m], plan[k].sequence))
      || (IsReplay(stream, plan, k) && Excused(w, stream, plan[k].sequence))
  }

  ghost predicate PlanOk(w: World, stream: seq<Message>, plan: Plan) {
    forall k :: 0 <= k < |plan| ==> EffectOk(w, stream, plan[k]) && RetirementOk(w, stream, plan, k)
  }

  lemma EffectForGood(w: World, stream: seq<Message>, w': World, stream': seq<Message>, effect: Effect)
    requires StreamGrows(stream, stream') && WorldGrows(w, w', stream) && EffectOk(w, stream, effect)
    ensures EffectOk(w', stream', effect)
  {
    assert forall i, j :: NamesJob(stream, i, j) ==> NamesJob(stream', i, j);
  }

  lemma ExcusesForGood(w: World, stream: seq<Message>, w': World, stream': seq<Message>, effect: Effect, i: nat)
    requires StreamGrows(stream, stream') && WorldGrows(w, w', stream) && Excuses(w, stream, effect, i)
    ensures Excuses(w', stream', effect, i)
  {
    PoisonKeyForGood(w, stream, w', stream', i);
  }

  /** What is left of a plan is still in order once its first effect has kept its word. */
  lemma RestIsOk(w: World, stream: seq<Message>, w': World, stream': seq<Message>, plan: Plan)
    requires StreamGrows(stream, stream') && WorldGrows(w, w', stream)
    requires plan != [] && PlanOk(w, stream, plan)
    requires forall i :: Excuses(w, stream, plan[0], i) ==> Cleared(w', stream', i)
    ensures PlanOk(w', stream', plan[1..])
  {
    var rest := plan[1..];
    forall k | 0 <= k < |rest| ensures EffectOk(w', stream', rest[k]) && RetirementOk(w', stream', rest, k) {
      assert rest[k] == plan[k + 1];
      EffectForGood(w, stream, w', stream', plan[k + 1]);
      if rest[k].Retire? {
        assert RetirementOk(w, stream, plan, k + 1);
        RetirementCarries(w, stream, w', stream', plan, k + 1);
      }
    }
  }

  lemma RetirementCarries(w: World, stream: seq<Message>, w': World, stream': seq<Message>, plan: Plan, k: nat)
    requires StreamGrows(stream, stream') && WorldGrows(w, w', stream)
    requires 0 < k < |plan| && plan[k].Retire? && RetirementOk(w, stream, plan, k)
    requires forall i :: Excuses(w, stream, plan[0], i) ==> Cleared(w', stream', i)
    ensures RetirementOk(w', stream', plan[1..], k - 1)
  {
    var s := plan[k].sequence;
    if Cleared(w, stream, s) {
      ClearedForGood(w, stream, w', stream', s);
    } else {
      var m :| 0 <= m < k && Excuses(w, stream, plan[m], s);
      if m > 0 {
        ExcusesForGood(w, stream, w', stream', plan[m], s);
        assert plan[1..][m - 1] == plan[m];
      }
    }
  }

  lemma PlanForGood(w: World, stream: seq<Message>, w': World, stream': seq<Message>, plan: Plan)
    requires StreamGrows(stream, stream') && WorldGrows(w, w', stream) && PlanOk(w, stream, plan)
    ensures PlanOk(w', stream', plan)
  {
    forall k | 0 <= k < |plan| ensures EffectOk(w', stream', plan[k]) && RetirementOk(w', stream', plan, k) {
      EffectForGood(w, stream, w', stream', plan[k]);
      if plan[k].Retire? {
        var s := plan[k].sequence;
        if Cleared(w, stream, s) {
          ClearedForGood(w, stream, w', stream', s);
        } else if IsReplay(stream, plan, k) && Excused(w, stream, s) {
          ExcusedForGood(w, stream, w', stream', s);
        } else {
          var m :| 0 <= m < k && Excuses(w, stream, plan[m], s);
          ExcusesForGood(w, stream, w', stream', plan[m], s);
        }
      }
    }
  }

  // ----- The invariant -----

  /** The deduplication window points at messages about the right job; a redrive of a message is
      always above it. */
  ghost predicate IdOk(stream: seq<Message>, id: MessageId, at: nat) {
    match id
    case QueuedId(job) => NamesJob(stream, at, job)
    case RedriveId(source) =>
      source < at && source < |stream| && stream[source].body.Names? && NamesJob(stream, at, stream[source].body.job)
  }

  ghost predicate IdsOk(stream: seq<Message>, ids: map<MessageId, nat>) {
    forall id :: id in ids ==> IdOk(stream, id, ids[id])
  }

  ghost predicate InStream(stream: seq<Message>, job: JobId) {
    exists i :: NamesJob(stream, i, job)
  }

  /** A queue row is marked published only after the stream holds a message about its job. */
  ghost predicate ConfirmedOk(w: World, stream: seq<Message>, confirmed: set<OutboxKey>) {
    && (forall j :: QueuedKey(j) in confirmed ==> InStream(stream, j))
    && (forall j :: IsPublished(w, QueuedKey(j)) ==> QueuedKey(j) in confirmed)
  }

  ghost predicate BufferOk(stream: seq<Message>, buffer: map<JobId, Pending>) {
    forall j :: j in buffer ==> NamesJob(stream, buffer[j].sequence, j)
  }

  ghost predicate BindingsOk(stream: seq<Message>, bindings: Ack.Bindings) {
    forall j :: j in bindings ==> NamesJob(stream, bindings[j].sequence, j)
  }

  ghost predicate TasksOk(w: World, stream: seq<Message>, tasks: map<nat, Plan>) {
    forall t :: t in tasks ==> PlanOk(w, stream, tasks[t])
  }

  ghost predicate RetiredOk(w: World, stream: seq<Message>) {
    forall i :: 0 <= i < |stream| && stream[i].retired ==> Excused(w, stream, i)
  }

  ghost predicate QueueOk(sys: Sys) {
    && IdsOk(sys.stream, sys.ids)
    && ConfirmedOk(sys.world, sys.stream, sys.confirmed)
    && BufferOk(sys.stream, sys.buffer)
    && BindingsOk(sys.stream, sys.bindings)
    && TasksOk(sys.world, sys.stream, sys.tasks)
    && RetiredOk(sys.world, sys.stream)
  }

  // ----- Elementary changes -----

  lemma PlanKeepsQueue(sys: Sys, task: nat, plan: Plan)
    requires QueueOk(sys) && PlanOk(sys.world, sys.stream, plan)
    ensures QueueOk(WithPlan(sys, task, plan))
  {}

  lemma WorldKeepsQueue(sys: Sys, w: World)
    requires QueueOk(sys) && WorldGrows(sys.world, w, sys.stream)
    requires forall j :: IsPublished(w, QueuedKey(j)) ==> QueuedKey(j) in sys.confirmed
    ensures QueueOk(sys.(world := w))
  {
    forall t | t in sys.tasks ensures PlanOk(w, sys.stream, sys.tasks[t]) {
      PlanForGood(sys.world, sys.stream, w, sys.stream, sys.tasks[t]);
    }
    forall i | 0 <= i < |sys.stream| && sys.stream[i].retired ensures Excused(w, sys.stream, i) {
      ExcusedForGood(sys.world, sys.stream, w, sys.stream, i);
    }
  }

  lemma SameWorldGrows(w: World, stream: seq<Message>)
    ensures WorldGrows(w, w, stream)
  {}

  /** A stream that grows keeps everything but its own retirements and the window in order. */
  lemma StreamKeepsQueue(sys: Sys, sys': Sys)
    requires QueueOk(sys) && StreamGrows(sys.stream, sys'.stream)
    requires sys' == sys.(stream := sys'.stream, ids := sys'.ids)
    requires IdsOk(sys'.stream, sys'.ids)
    requires forall i :: 0 <= i < |sys'.stream| && sys'.stream[i].retired ==>
      Excused(sys.world, sys'.stream, i) || (i < |sys.stream| && sys.stream[i].retired)
    ensures QueueOk(sys')
  {
    SameWorldGrows(sys.world, sys.stream);
    assert forall i, j :: NamesJob(sys.stream, i, j) ==> NamesJob(sys'.stream, i, j);
    forall t | t in sys.tasks ensures PlanOk(sys.world, sys'.stream, sys.tasks[t]) {
      PlanForGood(sys.world, sys.stream, sys.world, sys'.stream, sys.tasks[t]);
    }
    forall i | 0 <= i < |sys'.stream| && sys'.stream[i].retired ensures Excused(sys.world, sys'.stream, i) {
      if i < |sys.stream| && sys.stream[i].retired { ExcusedForGood(sys.world, sys.stream, sys.world, sys'.stream, i); }
    }
    forall j | QueuedKey(j) in sys.confirmed ensures InStream(sys'.stream, j) {
      var i :| NamesJob(sys.stream, i, j);
      assert NamesJob(sys'.stream, i, j);
    }
  }

  lemma IdForGood(stream: seq<Message>, stream': seq<Message>, id: MessageId, at: nat)
    requires StreamGrows(stream, stream') && IdOk(stream, id, at)
    ensures IdOk(stream', id, at)
  {}

  lemma RetireKeepsQueue(sys: Sys, sequence: nat)
    requires QueueOk(sys) && Excused(sys.world, sys.stream, sequence)
    ensures QueueOk(Retired(sys, sequence)) && StreamGrows(sys.stream, Retired(sys, sequence).stream)
  {
    var sys' := Retired(sys, sequence);
    SameWorldGrows(sys.world, sys.stream);
    ExcusedForGood(sys.world, sys.stream, sys.world, sys'.stream, sequence);
    forall id | id in sys.ids ensures IdOk(sys'.stream, id, sys.ids[id]) {
      IdForGood(sys.stream, sys'.stream, id, sys.ids[id]);
    }
    StreamKeepsQueue(sys, sys');
  }

  lemma AppendKeepsQueue(sys: Sys, body: Body)
    requires QueueOk(sys)
    ensures QueueOk(sys.(stream := sys.stream + [Message(body, false)]))
    ensures StreamGrows(sys.stream, sys.stream + [Message(body, false)])
  {
    var sys' := sys.(stream := sys.stream + [Message(body, false)]);
    forall id | id in sys.ids ensures IdOk(sys'.stream, id, sys.ids[id]) {
      IdForGood(sys.stream, sys'.stream, id, sys.ids[id]);
    }
    StreamKeepsQueue(sys, sys');
  }

  lemma PublishKeepsQueue(sys: Sys, id: MessageId, body: Body)
    requires QueueOk(sys) && HonestId(sys.stream, id, body)
    ensures QueueOk(Published(sys, id, body)) && StreamGrows(sys.stream, Published(sys, id, body).stream)
    ensures id in Published(sys, id, body).ids && IdsOk(Published(sys, id, body).stream, Published(sys, id, body).ids)
  {
    if id !in sys.ids {
      var sys' := Published(sys, id, body);
      AppendKeepsQueue(sys, body);
      assert NamesJob(sys'.stream, |sys.stream|, body.job);
    }
  }

  // ----- Effects -----

  /** A confirmed redrive puts a higher message about the same job in the stream, whether it was
      appended now or is the survivor of an earlier attempt. */
  lemma RedriveExcuses(sys: Sys, sequence: nat, body: Body)
    requires QueueOk(sys) && body.Names? && Owns(sys.world, sys.stream, sequence, body.job)
    ensures var sys' := Published(sys, RedriveId(sequence), body);
      QueueOk(sys') && StreamGrows(sys.stream, sys'.stream) && Cleared(sys.world, sys'.stream, sequence)
  {
    PublishKeepsQueue(sys, RedriveId(sequence), body);
    var sys' := Published(sys, RedriveId(sequence), body);
    assert IdOk(sys'.stream, RedriveId(sequence), sys'.ids[RedriveId(sequence)]);
    assert Superseded(sys'.stream, sequence, body.job);
  }

  lemma LetterPlanIsOk(w: World, stream: seq<Message>, sequence: nat, letter: DeadLetter)
    requires LetterOk(w, letter) && sequence < |stream|
    requires Validate(letter).None? ==>
      Cleared(w, stream, sequence) || Excuses(w, stream, AwaitPublished(Identity(letter)), sequence)
    ensures PlanOk(w, stream, DeadLetterPlan(sequence, letter))
  {
    var plan := DeadLetterPlan(sequence, letter);
    if Validate(letter).None? {
      assert plan[1] == AwaitPublished(Identity(letter));
      assert Cleared(w, stream, sequence) || Excuses(w, stream, plan[1], sequence);
    }
  }

  lemma OverClears(w: World, stream: seq<Message>, sequence: nat, job: JobId)
    requires NamesJob(stream, sequence, job) && IsOver(w, job) && ExhaustionConfirmed(w, job)
    ensures Cleared(w, stream, sequence)
  {}

  lemma EndedExcuses(w: World, stream: seq<Message>, sequence: nat, job: JobId)
    requires NamesJob(stream, sequence, job) && IsEnded(w, job)
    ensures Excused(w, stream, sequence)
  {}

  /** Only jobs that end under InfraFailed were ever exhausted. */
  lemma OthersAreUnmarked(w: World, job: JobId)
    requires MarkersOk(w) && job in w.db.jobs && w.db.jobs[job].pending != Some(JobOutcome.InfraFailed)
    ensures ExhaustionConfirmed(w, job)
  {
    assert !Exhausted(w, job);
  }

  /** Nor any that still names the worker that ended it. */
  lemma OwnedAreUnmarked(w: World, job: JobId)
    requires MarkersOk(w) && job in w.db.jobs && w.db.jobs[job].worker.Some?
    ensures ExhaustionConfirmed(w, job)
  {
    assert !Exhausted(w, job);
  }

  lemma PoisonPlanIsOk(w: World, stream: seq<Message>, sequence: nat, job: JobId, row: JobRow)
    requires Owns(w, stream, sequence, job)
    ensures PlanOk(w, stream, PoisonPlan(sequence, job, row))
  {
    var plan := PoisonPlan(sequence, job, row);
    assert plan[0] == Redrive(sequence, Canonical(job, row));
    assert Excuses(w, stream, plan[0], sequence);
  }

  lemma CancellationPlanIsOk(w: World, stream: seq<Message>, sequence: nat, job: JobId, row: JobRow)
    requires NamesJob(stream, sequence, job) && IsCancelling(w, job, if row.state.CollectingArtifacts? then 7 else 8)
    ensures PlanOk(w, stream, CancellationPlan(sequence, job, row))
  {
    var plan := CancellationPlan(sequence, job, row);
    assert Excuses(w, stream, plan[0], sequence);
  }

  lemma TerminalPlanIsOk(w: World, stream: seq<Message>, sequence: nat, job: JobId, row: JobRow)
    requires MarkersOk(w) && NamesJob(stream, sequence, job) && IsEnded(w, job) && row == w.db.jobs[job] && RowPlain(row)
    ensures PlanOk(w, stream, TerminalPlan(sequence, job, row))
  {
    if !row.state.InfraFailed? {
      OthersAreUnmarked(w, job);
      OverClears(w, stream, sequence, job);
    }
  }

  lemma AcceptPlanIsOk(w: World, stream: seq<Message>, pending: Pending, job: JobId, now: Time)
    requires MarkersOk(w) && Owns(w, stream, pending.sequence, job) && RowPlain(w.db.jobs[job])
    ensures PlanOk(w, stream, AcceptPlan(pending, job, w.db.jobs[job], now))
    ensures PlanOk(w, stream, DispatchPlan(pending, job, w.db.jobs[job], now))
  {
    var row := w.db.jobs[job];
    match Classify(pending.body, job, row, now)
    case AckTerminal => TerminalPlanIsOk(w, stream, pending.sequence, job, row);
    case FinalizeCancellation => CancellationPlanIsOk(w, stream, pending.sequence, job, row);
    case DeadLetterInconsistent => PoisonPlanIsOk(w, stream, pending.sequence, job, row);
    case _ =>
  }

  lemma ExhaustedPlanIsOk(w: World, stream: seq<Message>, sequence: nat, job: JobId, row: JobRow)
    requires MarkersOk(w) && NamesJob(stream, sequence, job) && IsOver(w, job) && Marked(w, job, row)
    ensures PlanOk(w, stream, ExhaustedPlan(sequence, job, row.attempts))
  {
    assert MarkerKey(job, row) == ExhaustedKey(job, w.maxAttempts);
    LetterPlanIsOk(w, stream, sequence, LetterFor(sequence, Some(job), row.attempts, AttemptsExhausted));
  }

  /** An ended job whose marker is not found under its own attempt count was never exhausted. */
  lemma UnfoundIsUnmarked(w: World, job: JobId)
    requires MarkersOk(w) && job in w.db.jobs && MarkerKey(job, w.db.jobs[job]) !in w.db.outbox
    ensures ExhaustionConfirmed(w, job)
  {}

  lemma MarkedIsExhausted(w: World, job: JobId)
    requires MarkersOk(w) && job in w.db.jobs && MarkerKey(job, w.db.jobs[job]) in w.db.outbox
    ensures w.db.jobs[job].attempts >= w.maxAttempts
  {}

  lemma AdvisedPlanIsOk(w: World, stream: seq<Message>, sequence: nat, job: JobId, row: JobRow)
    requires MarkersOk(w) && EffectOk(w, stream, Advised(sequence, job, row))
    ensures PlanOk(w, stream, AdvisedPlan(w, sequence, stream[sequence].body, job, row))
  {
    var body := stream[sequence].body;
    var plan := AdvisedPlan(w, sequence, body, job, row);
    if plan == [] {
    } else if row.state.Terminal() {
      EndedAdvisedPlanIsOk(w, stream, sequence, job, row);
    } else if body != Canonical(job, row) {
      PoisonPlanIsOk(w, stream, sequence, job, row);
    } else if plan[0].Redrive? {
      assert plan == [Redrive(sequence, Canonical(job, row)), Retire(sequence)];
      assert Excuses(w, stream, plan[0], sequence);
    } else {
      ExhaustedPlanIsOk(w, stream, sequence, job, row);
    }
  }

  lemma EndedAdvisedPlanIsOk(w: World, stream: seq<Message>, sequence: nat, job: JobId, row: JobRow)
    requires MarkersOk(w) && EffectOk(w, stream, Advised(sequence, job, row)) && row.state.Terminal()
    ensures PlanOk(w, stream, AdvisedPlan(w, sequence, stream[sequence].body, job, row))
  {
    if MarkerKey(job, row) in w.db.outbox {
      MarkedIsExhausted(w, job);
      if Marked(w, job, row) { ExhaustedPlanIsOk(w, stream, sequence, job, row); }
    } else {
      UnfoundIsUnmarked(w, job);
      OverClears(w, stream, sequence, job);
    }
  }

  lemma MissingJobPlanIsOk(w: World, stream: seq<Message>, sequence: nat)
    requires sequence < |stream|
    ensures stream[sequence].body.Malformed? ==> PlanOk(w, stream, MalformedPlan(sequence))
    ensures stream[sequence].body.Names? && stream[sequence].body.job !in w.db.jobs ==>
      PlanOk(w, stream, InconsistentPlan(sequence, stream[sequence].body.job, 1))
  {
    if stream[sequence].body.Malformed? {
      LetterPlanIsOk(w, stream, sequence, LetterFor(sequence, None, 1, MalformedMessage));
    } else if stream[sequence].body.job !in w.db.jobs {
      LetterPlanIsOk(w, stream, sequence, LetterFor(sequence, Some(stream[sequence].body.job), 1, CanonicalJobInconsistent));
    }
  }

  // ----- Transactions -----

  lemma StepGrowsWorld(w: World, step: Step, stream: seq<Message>)
    requires SeenOk(w) && RowsOk(w) && OutboxOk(w) && w.maxAttempts > 0 && Enabled(w, step)
    requires step.DoCreate? ==> forall i :: 0 <= i < |stream| ==> !NamesJob(stream, i, step.id)
    ensures WorldGrows(w, After(w, step), stream)
  {
    StepKeys(w, step);
    StepGrowsOutbox(w, step);
    OutcomesGrow(w, step);
    forall key | IsPublished(w, key) ensures IsPublished(After(w, step), key) { PublishedForGood(w, step, key); }
  }

  lemma OutcomesGrow(w: World, step: Step)
    requires SeenOk(w) && RowsOk(w) && OutboxOk(w) && w.maxAttempts > 0 && Enabled(w, step)
    ensures forall j :: IsOver(w, j) ==> IsOver(After(w, step), j)
    ensures forall j, rank :: IsCancelling(w, j, rank) ==> IsCancelling(After(w, step), j, rank)
    ensures forall j :: IsOver(w, j) && ExhaustionConfirmed(w, j) ==> ExhaustionConfirmed(After(w, step), j)
    ensures forall j :: IsEnded(w, j) ==> j in After(w, step).db.jobs && After(w, step).db.jobs[j] == w.db.jobs[j]
  {
    forall j | IsOver(w, j) ensures IsOver(After(w, step), j) { SettlementGrows(w, step, j); }
    forall j, rank | IsCancelling(w, j, rank) ensures IsCancelling(After(w, step), j, rank) { SettlementGrows(w, step, j); }
    forall j | IsOver(w, j) && ExhaustionConfirmed(w, j) ensures ExhaustionConfirmed(After(w, step), j) {
      ConfirmationGrows(w, step, j);
    }
    forall j | IsEnded(w, j) ensures j in After(w, step).db.jobs && After(w, step).db.jobs[j] == w.db.jobs[j] {
      EndedRowsStay(w, step, j);
    }
  }

  lemma EndedRowsStay(w: World, step: Step, j: JobId)
    requires SeenOk(w) && RowsOk(w) && Enabled(w, step) && IsEnded(w, j)
    ensures j in After(w, step).db.jobs && After(w, step).db.jobs[j] == w.db.jobs[j]
  {
    StepChanges(w, step, j);
    TerminalRowsAreFrozen(w, j, w.db.jobs[j], ChangeOf(w, step, j));
  }

  /** A job that is over is not exhausted any more, and published rows stay published. */
  lemma ConfirmationGrows(w: World, step: Step, j: JobId)
    requires SeenOk(w) && RowsOk(w) && OutboxOk(w) && w.maxAttempts > 0 && Enabled(w, step)
    requires IsOver(w, j) && ExhaustionConfirmed(w, j)
    ensures ExhaustionConfirmed(After(w, step), j)
  {
    var key := ExhaustedKey(j, w.maxAttempts);
    if key in w.db.outbox {
      PublishedForGood(w, step, key);
    } else if key in After(w, step).db.outbox {
      MarkerOrigin(w, step, j, w.maxAttempts);
      LeaselessAreNotExhausted(w, step, j);
    }
  }

  lemma LeaselessAreNotExhausted(w: World, step: Step, j: JobId)
    requires RowsOk(w) && IsOver(w, j)
    ensures !ExhaustsNow(w, step, j)
  {
    RowsArePlain(w, j);
  }

  lemma SettlementGrows(w: World, step: Step, j: JobId)
    requires SeenOk(w) && RowsOk(w) && Enabled(w, step) && j in w.db.jobs
    requires Settled(w.db.jobs[j]) || w.db.jobs[j].state.Terminal()
    ensures j in After(w, step).db.jobs
    ensures var row, row' := w.db.jobs[j], After(w, step).db.jobs[j];
      Settled(row') && row'.pending == row.pending && row.state.Rank() <= row'.state.Rank()
      && (row.state.Terminal() ==> row'.state.Terminal())
  {
    StepChanges(w, step, j);
    assert RowOk(w.db.jobs[j], w.maxAttempts);
    SettledForGood(w, j, w.db.jobs[j], ChangeOf(w, step, j));
  }

  lemma PublishedForGood(w: World, step: Step, key: OutboxKey)
    requires IsPublished(w, key)
    ensures IsPublished(After(w, step), key) || step.DoCreate?
    ensures Enabled(w, step) ==> IsPublished(After(w, step), key)
  {}

  /** A row becomes published only by being marked. */
  lemma PublishedOrigin(w: World, step: Step, key: OutboxKey)
    requires IsPublished(After(w, step), key)
    ensures IsPublished(w, key) || (step.DoPublished? && step.key == key)
  {}

  lemma TransactKeepsQueue(sys: Sys, step: Step)
    requires WorldOk(sys.world) && QueueOk(sys) && CanTransact(sys, step)
    ensures QueueOk(sys.(world := After(sys.world, step)))
    ensures WorldGrows(sys.world, After(sys.world, step), sys.stream)
  {
    StepGrowsWorld(sys.world, step, sys.stream);
    forall j | IsPublished(After(sys.world, step), QueuedKey(j)) ensures QueuedKey(j) in sys.confirmed {
      PublishedOrigin(sys.world, step, QueuedKey(j));
    }
    WorldKeepsQueue(sys, After(sys.world, step));
  }

  lemma RowsArePlain(w: World, job: JobId)
    requires RowsOk(w) && job in w.db.jobs
    ensures RowPlain(w.db.jobs[job])
  {
    OkRowIsPlain(w.db.jobs[job], w.maxAttempts);
  }

  lemma MarkersAreOk(w: World)
    requires WorldOk(w)
    ensures MarkersOk(w)
  {}

  lemma OkRowIsPlain(row: JobRow, maxAttempts: nat)
    requires RowOk(row, maxAttempts)
    ensures RowPlain(row)
  {}

  // ----- Effects, one by one -----

  lemma SingleIsOk(w: World, stream: seq<Message>, effect: Effect)
    requires EffectOk(w, stream, effect) && (effect.Retire? ==> Cleared(w, stream, effect.sequence))
    ensures PlanOk(w, stream, [effect])
  {}

  lemma RetireThenIsOk(w: World, stream: seq<Message>, sequence: nat, effect: Effect)
    requires EffectOk(w, stream, effect) && !effect.Retire?
    requires Cleared(w, stream, sequence)
      || (Excused(w, stream, sequence) && IsReplay(stream, [Retire(sequence), effect], 0))
    ensures PlanOk(w, stream, [Retire(sequence), effect])
  {}

  /** An effect that runs a transaction and goes on with a plan that was in order before it. */
  lemma TransactThenPlan(sys: Sys, step: Step, task: nat, plan: Plan)
    requires WorldOk(sys.world) && QueueOk(sys) && CanTransact(sys, step) && PlanOk(sys.world, sys.stream, plan)
    ensures QueueOk(WithPlan(sys.(world := After(sys.world, step)), task, plan))
  {
    TransactKeepsQueue(sys, step);
    PlanForGood(sys.world, sys.stream, After(sys.world, step), sys.stream, plan);
    PlanKeepsQueue(sys.(world := After(sys.world, step)), task, plan);
  }

  /** The plan without its head, when the head excuses nothing. */
  lemma PlainRestIsOk(w: World, stream: seq<Message>, plan: Plan)
    requires plan != [] && PlanOk(w, stream, plan) && (forall i :: !Excuses(w, stream, plan[0], i))
    ensures PlanOk(w, stream, plan[1..])
  {
    SameWorldGrows(w, stream);
    RestIsOk(w, stream, w, stream, plan);
  }

  lemma InspectKeeps(sys: Sys, task: nat, sequence: nat, now: Time)
    requires WorldOk(sys.world) && MarkersOk(sys.world) && QueueOk(sys) && sequence < |sys.stream|
    ensures QueueOk(InspectEffect(sys, task, sequence, now))
  {
    var body := sys.stream[sequence].body;
    MissingJobPlanIsOk(sys.world, sys.stream, sequence);
    if body.Malformed? {
      PlanKeepsQueue(sys, task, MalformedPlan(sequence));
    } else if body.job !in sys.world.db.jobs {
      PlanKeepsQueue(sys, task, InconsistentPlan(sequence, body.job, 1));
    } else {
      RowsArePlain(sys.world, body.job);
      AcceptPlanIsOk(sys.world, sys.stream, Pending(body, sequence), body.job, now);
      TransactThenPlan(sys, DoObserve(body.job), task,
                       AcceptPlan(Pending(body, sequence), body.job, sys.world.db.jobs[body.job], now));
    }
  }

  lemma ReviewKeeps(sys: Sys, task: nat, job: JobId, pending: Pending, now: Time)
    requires WorldOk(sys.world) && MarkersOk(sys.world) && QueueOk(sys) && NamesJob(sys.stream, pending.sequence, job)
    ensures QueueOk(ReviewEffect(sys, task, job, pending, now))
  {
    MissingJobPlanIsOk(sys.world, sys.stream, pending.sequence);
    if job !in sys.world.db.jobs {
      PlanKeepsQueue(sys, task, InconsistentPlan(pending.sequence, job, 1));
    } else {
      RowsArePlain(sys.world, job);
      AcceptPlanIsOk(sys.world, sys.stream, pending, job, now);
      TransactThenPlan(sys, DoObserve(job), task, DispatchPlan(pending, job, sys.world.db.jobs[job], now));
    }
  }

  lemma AdviseKeeps(sys: Sys, task: nat, sequence: nat)
    requires QueueOk(sys) && (forall j :: j in sys.world.db.jobs ==> RowPlain(sys.world.db.jobs[j]))
    ensures QueueOk(AdviseEffect(sys, task, sequence))
  {
    if sequence >= |sys.stream| || sys.stream[sequence].retired {
      PlanKeepsQueue(sys, task, []);
    } else {
      var body := sys.stream[sequence].body;
      MissingJobPlanIsOk(sys.world, sys.stream, sequence);
      if body.Malformed? {
        PlanKeepsQueue(sys, task, MalformedPlan(sequence));
      } else if body.job !in sys.world.db.jobs {
        PlanKeepsQueue(sys, task, InconsistentPlan(sequence, body.job, 1));
      } else {
        var effect := Advised(sequence, body.job, sys.world.db.jobs[body.job]);
        SingleIsOk(sys.world, sys.stream, effect);
        PlanKeepsQueue(sys, task, [effect]);
      }
    }
  }

  lemma FinishTerminalPlanIsOk(w: World, stream: seq<Message>, sequence: nat, job: JobId, row: JobRow)
    requires MarkersOk(w) && NamesJob(stream, sequence, job) && IsEnded(w, job) && row == w.db.jobs[job]
    ensures PlanOk(w, stream, FinishTerminalPlan(w, sequence, job, row))
  {
    if MarkerKey(job, row) in w.db.outbox {
      if Marked(w, job, row) { ExhaustedPlanIsOk(w, stream, sequence, job, row); }
    } else {
      UnfoundIsUnmarked(w, job);
      OverClears(w, stream, sequence, job);
      SingleIsOk(w, stream, Retire(sequence));
    }
  }

  /** Of two messages about one existing job, the lower may go. */
  lemma LowerIsCleared(w: World, stream: seq<Message>, low: nat, high: nat, job: JobId)
    requires low < high && Owns(w, stream, low, job) && NamesJob(stream, high, job)
    ensures Cleared(w, stream, low)
  {
    assert Superseded(stream, low, job);
  }

  lemma BufferKeeps(sys: Sys, job: JobId, pending: Pending)
    requires QueueOk(sys) && NamesJob(sys.stream, pending.sequence, job)
    ensures QueueOk(sys.(buffer := sys.buffer[job := pending]))
  {}

  /** What the handler does after finding another sequence of the job in the buffer. */
  lemma OfferPlansAreOk(w: World, stream: seq<Message>, job: JobId, existing: nat, offered: nat)
    requires Owns(w, stream, offered, job) && NamesJob(stream, existing, job)
    ensures existing < offered ==> PlanOk(w, stream, [Retire(existing), Replace(job, offered)])
    ensures offered < existing ==> PlanOk(w, stream, [Retire(offered)])
  {
    if existing < offered {
      LowerIsCleared(w, stream, existing, offered, job);
      RetireThenIsOk(w, stream, existing, Replace(job, offered));
    } else if offered < existing {
      LowerIsCleared(w, stream, offered, existing, job);
      SingleIsOk(w, stream, Retire(offered));
    }
  }

  lemma OfferKeeps(sys: Sys, task: nat, job: JobId, pending: Pending)
    requires QueueOk(sys) && Owns(sys.world, sys.stream, pending.sequence, job)
    ensures QueueOk(OfferEffect(sys, task, job, pending))
  {
    if job !in sys.buffer {
      BufferKeeps(sys, job, pending);
      PlanKeepsQueue(Pushed(sys, job, pending), task, []);
    } else {
      var existing := sys.buffer[job].sequence;
      OfferPlansAreOk(sys.world, sys.stream, job, existing, pending.sequence);
      if existing < pending.sequence {
        PlanKeepsQueue(sys, task, [Retire(existing), Replace(job, pending.sequence)]);
      } else if existing > pending.sequence {
        PlanKeepsQueue(sys, task, [Retire(pending.sequence)]);
      } else {
        PlanKeepsQueue(sys, task, []);
      }
    }
  }

  lemma BindOrAckPlanIsOk(sys: Sys, job: JobId, guard: Guard, sequence: nat)
    requires BindingsOk(sys.stream, sys.bindings) && Owns(sys.world, sys.stream, sequence, job)
    ensures PlanOk(sys.world, sys.stream, BindOrAckPlan(sys, job, guard, sequence))
  {
    var bind := Bind(job, Ack.AckBinding(guard, sequence));
    SingleIsOk(sys.world, sys.stream, bind);
    var bound := Bound(sys, job, guard);
    if bound.Some? {
      var existing := bound.value.sequence;
      if existing > sequence {
        LowerIsCleared(sys.world, sys.stream, sequence, existing, job);
        SingleIsOk(sys.world, sys.stream, Retire(sequence));
      } else if existing < sequence {
        LowerIsCleared(sys.world, sys.stream, existing, sequence, job);
        RetireThenIsOk(sys.world, sys.stream, existing, bind);
        assert BindOrAckPlan(sys, job, guard, sequence) == [Retire(existing), bind];
      }
    }
  }

  lemma BindKeeps(sys: Sys, job: JobId, binding: Ack.AckBinding)
    requires QueueOk(sys) && NamesJob(sys.stream, binding.sequence, job)
    ensures QueueOk(sys.(bindings := sys.bindings[job := binding]))
  {}

  lemma UnboundKeeps(sys: Sys, job: JobId)
    requires QueueOk(sys)
    ensures QueueOk(sys.(bindings := sys.bindings - {job}))
  {}

  /** Whatever is bound to an ended job is excused; it is cleared too unless a replay asks. */
  lemma ConfirmPlanIsOk(sys: Sys, job: JobId, guard: Guard, cause: AckCause)
    requires BindingsOk(sys.stream, sys.bindings) && EffectOk(sys.world, sys.stream, ConfirmAck(job, guard, cause))
    ensures PlanOk(sys.world, sys.stream, ConfirmPlan(sys, job, guard, cause))
  {
    var bound := Bound(sys, job, guard);
    if bound.Some? {
      var sequence := bound.value.sequence;
      EndedExcuses(sys.world, sys.stream, sequence, job);
      if ExhaustionConfirmed(sys.world, job) { OverClears(sys.world, sys.stream, sequence, job); }
      RetireThenIsOk(sys.world, sys.stream, sequence, Unbind(job, guard, sequence, cause));
    }
  }

  lemma UnbindKeeps(sys: Sys, task: nat, job: JobId, guard: Guard, sequence: nat, cause: AckCause)
    requires QueueOk(sys) && EffectOk(sys.world, sys.stream, ConfirmAck(job, guard, cause))
    ensures QueueOk(UnbindEffect(sys, task, job, guard, sequence, cause))
  {
    UnboundKeeps(sys, job);
    ConfirmPlanIsOk(sys, job, guard, cause);
    PlanKeepsQueue(sys, task, []);
    PlanKeepsQueue(sys.(bindings := sys.bindings - {job}), task, []);
    PlanKeepsQueue(sys, task, ConfirmPlan(sys, job, guard, cause));
  }

  lemma TakenPlanIsOk(sys: Sys, job: JobId, guard: Guard)
    requires BindingsOk(sys.stream, sys.bindings) && IsEnded(sys.world, job) && ExhaustionConfirmed(sys.world, job)
    requires Bound(sys, job, guard).Some?
    ensures PlanOk(sys.world, sys.stream, [Retire(Bound(sys, job, guard).value.sequence)])
  {
    OverClears(sys.world, sys.stream, Bound(sys, job, guard).value.sequence, job);
    SingleIsOk(sys.world, sys.stream, Retire(Bound(sys, job, guard).value.sequence));
  }

  lemma TakeKeeps(sys: Sys, task: nat, job: JobId, guard: Guard)
    requires QueueOk(sys) && IsEnded(sys.world, job) && ExhaustionConfirmed(sys.world, job)
    ensures QueueOk(TakeEffect(sys, task, job, guard))
  {
    if Bound(sys, job, guard).Some? {
      TakenPlanIsOk(sys, job, guard);
      UnboundKeeps(sys, job);
      PlanKeepsQueue(sys.(bindings := sys.bindings - {job}), task, [Retire(Bound(sys, job, guard).value.sequence)]);
    } else {
      PlanKeepsQueue(sys, task, []);
    }
  }

  /** Another head that excuses as much keeps the rest of the plan in order. */
  lemma HeadReplaced(w: World, stream: seq<Message>, plan: Plan, head: Effect)
    requires plan != [] && PlanOk(w, stream, plan) && EffectOk(w, stream, head) && !head.Retire?
    requires forall i :: Excuses(w, stream, plan[0], i) ==> Excuses(w, stream, head, i)
    ensures PlanOk(w, stream, [head] + plan[1..])
  {
    var plan' := [head] + plan[1..];
    forall k | 0 <= k < |plan'| ensures EffectOk(w, stream, plan'[k]) && RetirementOk(w, stream, plan', k) {
      if k > 0 {
        assert plan'[k] == plan[k] && RetirementOk(w, stream, plan, k);
        if plan[k].Retire? && !Cleared(w, stream, plan[k].sequence) {
          var m :| 0 <= m < k && Excuses(w, stream, plan[m], plan[k].sequence);
          assert Excuses(w, stream, plan'[m], plan[k].sequence);
        }
      }
    }
  }

  /** Where a successful unguarded transition of a cancelled job leads. */
  lemma FinalizeAdvances(w: World, job: JobId, finish: bool)
    requires SeenOk(w) && MarkersOk(w) && IsCancelling(w, job, 7) && !FinalizeFails(w, job, finish)
    ensures var w' := After(w, DoFinalize(job, finish));
      if finish then IsOver(w', job) && ExhaustionConfirmed(w', job) else IsCancelling(w', job, 8)
  {
    OthersAreUnmarked(w, job);
  }

  lemma FinalizeSucceeds(sys: Sys, job: JobId, finish: bool, w': World)
    requires WorldOk(sys.world) && MarkersOk(sys.world) && QueueOk(sys) && IsCancelling(sys.world, job, 7)
    requires !FinalizeFails(sys.world, job, finish) && w' == After(sys.world, DoFinalize(job, finish))
    ensures QueueOk(sys.(world := w')) && WorldGrows(sys.world, w', sys.stream)
    ensures if finish then IsOver(w', job) && ExhaustionConfirmed(w', job) else IsCancelling(w', job, 8)
  {
    TransactKeepsQueue(sys, DoFinalize(job, finish));
    FinalizeAdvances(sys.world, job, finish);
  }

  lemma FinalizedKeeps(sys: Sys, w': World, task: nat, plan: Plan)
    requires QueueOk(sys.(world := w')) && WorldGrows(sys.world, w', sys.stream)
    requires plan != [] && plan[0].Finalize? && PlanOk(sys.world, sys.stream, plan)
    requires if plan[0].finish then IsOver(w', plan[0].job) && ExhaustionConfirmed(w', plan[0].job)
      else IsCancelling(w', plan[0].job, 8)
    ensures QueueOk(WithPlan(sys.(world := w'), task,
                             if plan[0].finish then plan[1..] else [Refresh(plan[0].job)] + plan[1..]))
  {
    FinalizedPlanIsOk(sys.world, w', sys.stream, plan);
    PlanKeepsQueue(sys.(world := w'), task, if plan[0].finish then plan[1..] else [Refresh(plan[0].job)] + plan[1..]);
  }

  lemma FinalizedPlanIsOk(w: World, w': World, stream: seq<Message>, plan: Plan)
    requires WorldGrows(w, w', stream) && plan != [] && plan[0].Finalize? && PlanOk(w, stream, plan)
    requires if plan[0].finish then IsOver(w', plan[0].job) && ExhaustionConfirmed(w', plan[0].job)
      else IsCancelling(w', plan[0].job, 8)
    ensures PlanOk(w', stream, if plan[0].finish then plan[1..] else [Refresh(plan[0].job)] + plan[1..])
  {
    if plan[0].finish {
      forall i | Excuses(w, stream, plan[0], i) ensures Cleared(w', stream, i) { OverClears(w', stream, i, plan[0].job); }
      RestIsOk(w, stream, w', stream, plan);
    } else {
      PlanForGood(w, stream, w', stream, plan);
      HeadReplaced(w', stream, plan, Refresh(plan[0].job));
    }
  }

  lemma RefreshKeeps(sys: Sys, task: nat, plan: Plan, now: Time)
    requires MarkersOk(sys.world) && QueueOk(sys) && plan != [] && plan[0].Refresh? && PlanOk(sys.world, sys.stream, plan)
    ensures QueueOk(Execute(sys, task, plan[0], plan[1..], now))
  {
    var w, stream, job := sys.world, sys.stream, plan[0].job;
    assert EffectOk(w, stream, plan[0]);
    OthersAreUnmarked(w, job);
    if w.db.jobs[job].state.CleaningUp? {
      HeadReplaced(w, stream, plan, Finalize(job, true));
      PlanKeepsQueue(sys, task, [Finalize(job, true)] + plan[1..]);
    } else {
      forall i | Excuses(w, stream, plan[0], i) ensures Cleared(w, stream, i) { OverClears(w, stream, i, job); }
      SameWorldGrows(w, stream);
      RestIsOk(w, stream, w, stream, plan);
      PlanKeepsQueue(sys, task, plan[1..]);
    }
  }

  lemma RedriveKeeps(sys: Sys, task: nat, plan: Plan)
    requires QueueOk(sys) && plan != [] && plan[0].Redrive? && PlanOk(sys.world, sys.stream, plan)
    ensures QueueOk(WithPlan(Published(sys, RedriveId(plan[0].sequence), plan[0].body), task, plan[1..]))
  {
    assert EffectOk(sys.world, sys.stream, plan[0]);
    RedriveExcuses(sys, plan[0].sequence, plan[0].body);
    var sys' := Published(sys, RedriveId(plan[0].sequence), plan[0].body);
    SameWorldGrows(sys.world, sys.stream);
    RestIsOk(sys.world, sys.stream, sys.world, sys'.stream, plan);
    PlanKeepsQueue(sys', task, plan[1..]);
  }

  lemma AwaitKeeps(sys: Sys, task: nat, plan: Plan)
    requires QueueOk(sys) && plan != [] && plan[0].AwaitPublished? && PlanOk(sys.world, sys.stream, plan)
    requires IsPublished(sys.world, plan[0].key)
    ensures QueueOk(WithPlan(sys, task, plan[1..]))
  {
    SameWorldGrows(sys.world, sys.stream);
    RestIsOk(sys.world, sys.stream, sys.world, sys.stream, plan);
    PlanKeepsQueue(sys, task, plan[1..]);
  }

  lemma HeadRetirementIsExcused(w: World, stream: seq<Message>, plan: Plan)
    requires plan != [] && plan[0].Retire? && PlanOk(w, stream, plan)
    ensures Excused(w, stream, plan[0].sequence)
  {
    assert RetirementOk(w, stream, plan, 0);
  }

  lemma RetireKeeps(sys: Sys, task: nat, plan: Plan)
    requires QueueOk(sys) && plan != [] && plan[0].Retire? && PlanOk(sys.world, sys.stream, plan)
    ensures QueueOk(WithPlan(Retired(sys, plan[0].sequence), task, plan[1..]))
  {
    HeadRetirementIsExcused(sys.world, sys.stream, plan);
    RetireKeepsQueue(sys, plan[0].sequence);
    var sys' := Retired(sys, plan[0].sequence);
    SameWorldGrows(sys.world, sys.stream);
    RestIsOk(sys.world, sys.stream, sys.world, sys'.stream, plan);
    PlanKeepsQueue(sys', task, plan[1..]);
  }

  lemma LetterKeeps(sys: Sys, task: nat, plan: Plan)
    requires WorldOk(sys.world) && QueueOk(sys)
    requires plan != [] && plan[0].Letter? && PlanOk(sys.world, sys.stream, plan)
    ensures QueueOk(WithPlan(sys.(world := After(sys.world, DoEnqueue(plan[0].letter))), task, plan[1..]))
  {
    assert EffectOk(sys.world, sys.stream, plan[0]);
    PlainRestIsOk(sys.world, sys.stream, plan);
    TransactThenPlan(sys, DoEnqueue(plan[0].letter), task, plan[1..]);
  }

  /** Effects that touch the database. */
  lemma DatabaseEffectKeeps(sys: Sys, task: nat, plan: Plan, now: Time)
    requires WorldOk(sys.world) && MarkersOk(sys.world) && QueueOk(sys) && plan != [] && PlanOk(sys.world, sys.stream, plan)
    requires plan[0].Inspect? || plan[0].Review? || plan[0].Letter? || plan[0].Finalize?
    ensures QueueOk(Execute(sys, task, plan[0], plan[1..], now))
  {
    assert EffectOk(sys.world, sys.stream, plan[0]);
    match plan[0]
    case Inspect(sequence) => InspectKeeps(sys, task, sequence, now);
    case Review(job, pending) => ReviewKeeps(sys, task, job, pending, now);
    case Letter(letter) => LetterKeeps(sys, task, plan);
    case Finalize(job, finish) =>
      if FinalizeFails(sys.world, job, finish) {
        PlanKeepsQueue(sys, task, []);
      } else {
        var w' := After(sys.world, DoFinalize(job, finish));
        FinalizeSucceeds(sys, job, finish, w');
        FinalizedKeeps(sys, w', task, plan);
      }
  }

  /** Effects on the buffer and the bindings. */
  lemma MemoryEffectKeeps(sys: Sys, task: nat, plan: Plan, now: Time)
    requires QueueOk(sys) && plan != [] && PlanOk(sys.world, sys.stream, plan)
    requires plan[0].Offer? || plan[0].Replace? || plan[0].Dispatch? || plan[0].Requeue? || plan[0].Bind?
    ensures QueueOk(Execute(sys, task, plan[0], plan[1..], now))
  {
    assert EffectOk(sys.world, sys.stream, plan[0]);
    PlainRestIsOk(sys.world, sys.stream, plan);
    match plan[0]
    case Offer(job, pending) => OfferKeeps(sys, task, job, pending);
    case Replace(job, sequence) =>
      if job in sys.buffer {
        var replaced := sys.buffer[job].(sequence := sequence);
        BufferKeeps(sys, job, replaced);
        PlanKeepsQueue(sys.(buffer := sys.buffer[job := replaced]), task, plan[1..]);
      } else {
        PlanKeepsQueue(sys, task, plan[1..]);
      }
    case Dispatch(job, pending) =>
      SingleIsOk(sys.world, sys.stream, Requeue(job, pending));
      PlanKeepsQueue(sys, task, [Requeue(job, pending)]);
    case Requeue(job, pending) =>
      BufferKeeps(sys, job, pending);
      PlanKeepsQueue(Pushed(sys, job, pending), task, []);
    case Bind(job, binding) =>
      BindKeeps(sys, job, binding);
      PlanKeepsQueue(sys.(bindings := sys.bindings[job := binding]), task, plan[1..]);
  }

  /** Effects that only decide how the handler goes on. */
  lemma DecisionKeeps(sys: Sys, task: nat, plan: Plan, now: Time)
    requires MarkersOk(sys.world) && QueueOk(sys) && plan != [] && PlanOk(sys.world, sys.stream, plan)
    requires forall j :: j in sys.world.db.jobs ==> RowPlain(sys.world.db.jobs[j])
    requires plan[0].Advise? || plan[0].Advised? || plan[0].FinishTerminal? || plan[0].BindOrAck? || plan[0].Refresh?
      || plan[0].AwaitPublished?
    ensures QueueOk(Execute(sys, task, plan[0], plan[1..], now))
  {
    var w, stream := sys.world, sys.stream;
    assert EffectOk(w, stream, plan[0]);
    match plan[0]
    case Advise(sequence) => AdviseKeeps(sys, task, sequence);
    case Advised(sequence, job, row) =>
      AdvisedPlanIsOk(w, stream, sequence, job, row);
      PlanKeepsQueue(sys, task, AdvisedPlan(w, sequence, stream[sequence].body, job, row));
    case FinishTerminal(sequence, job, row) =>
      FinishTerminalPlanIsOk(w, stream, sequence, job, row);
      PlanKeepsQueue(sys, task, FinishTerminalPlan(w, sequence, job, row));
    case BindOrAck(job, guard, sequence) =>
      BindOrAckPlanIsOk(sys, job, guard, sequence);
      PlanKeepsQueue(sys, task, BindOrAckPlan(sys, job, guard, sequence));
    case Refresh(job) => RefreshKeeps(sys, task, plan, now);
    case AwaitPublished(key) =>
      if IsPublished(w, key) { AwaitKeeps(sys, task, plan); } else { PlanKeepsQueue(sys, task, []); }
  }

  /** Effects on the stream, and the acknowledgement of ended jobs. */
  lemma StreamEffectKeeps(sys: Sys, task: nat, plan: Plan, now: Time)
    requires QueueOk(sys) && plan != [] && PlanOk(sys.world, sys.stream, plan)
    requires plan[0].Redrive? || plan[0].Retire? || plan[0].ConfirmAck? || plan[0].Unbind? || plan[0].TakeBound?
    ensures QueueOk(Execute(sys, task, plan[0], plan[1..], now))
  {
    assert EffectOk(sys.world, sys.stream, plan[0]);
    match plan[0]
    case Redrive(_, _) => RedriveKeeps(sys, task, plan);
    case Retire(_) => RetireKeeps(sys, task, plan);
    case ConfirmAck(job, guard, cause) =>
      ConfirmPlanIsOk(sys, job, guard, cause);
      PlanKeepsQueue(sys, task, ConfirmPlan(sys, job, guard, cause));
    case Unbind(job, guard, sequence, cause) => UnbindKeeps(sys, task, job, guard, sequence, cause);
    case TakeBound(job, guard) => TakeKeeps(sys, task, job, guard);
  }

  lemma EffectKeepsQueue(sys: Sys, task: nat, plan: Plan, now: Time)
    requires WorldOk(sys.world) && QueueOk(sys) && plan != [] && PlanOk(sys.world, sys.stream, plan)
    ensures QueueOk(Execute(sys, task, plan[0], plan[1..], now))
  {
    forall j | j in sys.world.db.jobs ensures RowPlain(sys.world.db.jobs[j]) { RowsArePlain(sys.world, j); }
    MarkersAreOk(sys.world);
    match plan[0]
    case Inspect(_) => DatabaseEffectKeeps(sys, task, plan, now);
    case Review(_, _) => DatabaseEffectKeeps(sys, task, plan, now);
    case Letter(_) => DatabaseEffectKeeps(sys, task, plan, now);
    case Finalize(_, _) => DatabaseEffectKeeps(sys, task, plan, now);
    case Offer(_, _) => MemoryEffectKeeps(sys, task, plan, now);
    case Replace(_, _) => MemoryEffectKeeps(sys, task, plan, now);
    case Dispatch(_, _) => MemoryEffectKeeps(sys, task, plan, now);
    case Requeue(_, _) => MemoryEffectKeeps(sys, task, plan, now);
    case Bind(_, _) => MemoryEffectKeeps(sys, task, plan, now);
    case Redrive(_, _) => StreamEffectKeeps(sys, task, plan, now);
    case Retire(_) => StreamEffectKeeps(sys, task, plan, now);
    case ConfirmAck(_, _, _) => StreamEffectKeeps(sys, task, plan, now);
    case Unbind(_, _, _, _) => StreamEffectKeeps(sys, task, plan, now);
    case TakeBound(_, _) => StreamEffectKeeps(sys, task, plan, now);
    case _ => DecisionKeeps(sys, task, plan, now);
  }
}
