/** Three histories of the work queue: one in which the last message of an exhausted job is retired
    before its dead letter is published, one in which a lease is bound again to a lower sequence, and
    one in which a published queued job finds the buffer full. */
module QueueWitnesses {
  import opened Base
  import opened Lifecycle
  import opened DeadLetters
  import opened Store
  import opened Runs
  import opened Delivery
  import opened QueueProtocol
  import opened QueueGuarantees
  import opened QueueProgress
  import opened Witnesses
  import Ack = Acknowledgements

  // ----- Histories through a system -----

  ghost predicate HistoryThrough(states: seq<Sys>, moves: seq<Move>, n: nat, mid: Sys, sys: Sys) {
    HistoryTo(states, moves, sys) && n <= |moves| && states[n] == mid
  }

  /** Some history passes one system and ends in the other. */
  ghost predicate Goes(mid: Sys, sys: Sys) {
    exists states, moves, n: nat :: HistoryThrough(states, moves, n, mid, sys)
  }

  lemma GoesNowhere(sys: Sys)
    requires ReachableSys(sys)
    ensures Goes(sys, sys)
  {
    var states, moves :| HistoryTo(states, moves, sys);
    assert HistoryThrough(states, moves, |moves|, sys, sys);
  }

  lemma GoesOn(mid: Sys, sys: Sys, move: Move)
    requires Goes(mid, sys) && CanMove(sys, move)
    ensures Goes(mid, Next(sys, move))
  {
    var states, moves, n: nat :| HistoryThrough(states, moves, n, mid, sys);
    HistoryExtends(states, moves, move);
    assert HistoryThrough(states + [Next(sys, move)], moves + [move], n, mid, Next(sys, move));
  }

  lemma GoesIsReachable(mid: Sys, sys: Sys)
    requires Goes(mid, sys)
    ensures ReachableSys(sys)
  {
    var states, moves, n: nat :| HistoryThrough(states, moves, n, mid, sys);
  }

  lemma GoesByTransaction(mid: Sys, sys: Sys, step: Step)
    requires Goes(mid, sys) && CanTransact(sys, step)
    ensures Goes(mid, sys.(world := After(sys.world, step)))
  {
    GoesOn(mid, sys, Transact(step));
  }

  lemma GoesByEffect(mid: Sys, sys: Sys, task: nat, effect: Effect, rest: Plan, now: Time)
    requires Goes(mid, sys) && task in sys.tasks && sys.tasks[task] == [effect] + rest
    ensures Goes(mid, Execute(sys, task, effect, rest, now))
  {
    assert sys.tasks[task][0] == effect && sys.tasks[task][1..] == rest;
    GoesOn(mid, sys, Perform(task, now));
  }

  // ----- A job, published and claimed -----

  const BODY := Names(JOB, PROJECT, SPEC)
  const MESSAGE := Message(BODY, false)

  function Untouched(w: World, stream: seq<Message>, ids: map<MessageId, nat>, confirmed: set<OutboxKey>): Sys {
    Sys(w, stream, ids, confirmed, map[], map[], map[], 1, {})
  }

  predicate Created(w: World) {
    && Stands(w, NewRow(REQUEST), 0) && w.issued == map[] && w.seen == map[]
    && w.db.outbox == map[QueuedKey(JOB) := OutboxRow(None, None, false)]
  }

  lemma JobIsCreated() returns (w: World, mid: Sys)
    ensures Created(w) && Goes(mid, Untouched(w, [], map[], {}))
  {
    mid := Untouched(EmptyStart(), [], map[], {});
    FreshIsReachable(mid);
    GoesNowhere(mid);
    var w1 := RegisterHappens();
    GoesByTransaction(mid, mid, REGISTER);
    CreateHappens(w1);
    GoesByTransaction(mid, Untouched(w1, [], map[], {}), CREATE);
    w := After(w1, CREATE);
  }

  /** Publishing the queue row appends the job's message, if the window has forgotten the last one. */
  lemma PublishAppends(mid: Sys, w: World, stream: seq<Message>, confirmed: set<OutboxKey>)
    requires Created(w) && Goes(mid, Untouched(w, stream, map[], confirmed))
    ensures Goes(mid, Untouched(w, stream + [MESSAGE], map[QueuedId(JOB) := |stream|], confirmed + {QueuedKey(JOB)}))
  {
    GoesOn(mid, Untouched(w, stream, map[], confirmed), PublishQueued(JOB));
  }

  lemma WindowForgets(mid: Sys, w: World, stream: seq<Message>, at: nat, confirmed: set<OutboxKey>)
    requires Goes(mid, Untouched(w, stream, map[QueuedId(JOB) := at], confirmed))
    ensures Goes(mid, Untouched(w, stream, map[], confirmed))
  {
    GoesOn(mid, Untouched(w, stream, map[QueuedId(JOB) := at], confirmed), Forget(QueuedId(JOB)));
    assert (map[QueuedId(JOB) := at]) - {QueuedId(JOB)} == map[];
  }

  predicate Claimed(w: World) {
    Stands(w, ClaimedJob(), 1) && w.seen == map[] && w.db.outbox == map[QueuedKey(JOB) := OutboxRow(None, None, false)]
  }

  /** A claim whose delivery was not bound, as when the scheduler stops in between. */
  lemma PublishedJobIsClaimed(mid: Sys, w: World, stream: seq<Message>, ids: map<MessageId, nat>, confirmed: set<OutboxKey>)
    returns (w': World)
    requires Created(w) && Goes(mid, Untouched(w, stream, ids, confirmed))
    ensures Claimed(w') && Goes(mid, Untouched(w', stream, ids, confirmed))
  {
    ClaimHappens(w);
    GoesByTransaction(mid, Untouched(w, stream, ids, confirmed), DoClaim(CLAIM));
    w' := After(w, DoClaim(CLAIM));
  }

  // ----- Deliveries of the leased job -----

  lemma InspectLeased(sys: Sys, task: nat, sequence: nat)
    requires Stands(sys.world, ClaimedJob(), 1) && sequence < |sys.stream| && sys.stream[sequence].body == BODY
    ensures InspectEffect(sys, task, sequence, 1) == WithPlan(sys, task, [BindOrAck(JOB, GUARD, sequence)])
  {
    assert Classify(BODY, JOB, ClaimedJob(), 1) == Rebind(GUARD);
    assert After(sys.world, DoObserve(JOB)) == sys.world;
  }

  lemma DeliveryStarts(mid: Sys, sys: Sys, task: nat, sequence: nat)
    requires Goes(mid, sys) && task !in sys.tasks && sequence < |sys.stream|
    ensures Goes(mid, WithPlan(sys, task, [Inspect(sequence)]))
  {
    GoesOn(mid, sys, Deliver(task, sequence));
  }

  /** A redelivery under the live lease is about to be rebound. */
  lemma DeliveryIsSeen(mid: Sys, sys: Sys, task: nat, sequence: nat)
    requires Goes(mid, sys) && task !in sys.tasks
    requires Stands(sys.world, ClaimedJob(), 1) && sequence < |sys.stream| && sys.stream[sequence].body == BODY
    ensures Goes(mid, WithPlan(sys, task, [BindOrAck(JOB, GUARD, sequence)]))
  {
    var sys1 := WithPlan(sys, task, [Inspect(sequence)]);
    DeliveryStarts(mid, sys, task, sequence);
    InspectLeased(sys1, task, sequence);
    EffectGoes(mid, sys1, task, Inspect(sequence), 1);
    WithPlanTwice(sys, task, [Inspect(sequence)], [BindOrAck(JOB, GUARD, sequence)]);
  }

  lemma EffectGoes(mid: Sys, sys: Sys, task: nat, effect: Effect, now: Time)
    requires Goes(mid, sys) && task in sys.tasks && sys.tasks[task] == [effect]
    ensures Goes(mid, Execute(sys, task, effect, [], now))
  {
    assert [effect] == [effect] + [];
    GoesByEffect(mid, sys, task, effect, [], now);
  }

  lemma WithPlanTwice(sys: Sys, task: nat, first: Plan, second: Plan)
    ensures WithPlan(WithPlan(sys, task, first), task, second) == WithPlan(sys, task, second)
  {
    assert sys.tasks[task := first][task := second] == sys.tasks[task := second];
  }

  /** With nothing bound, the delivery is going to be bound. */
  lemma DeliveryIsAboutToBind(mid: Sys, sys: Sys, task: nat, sequence: nat)
    requires Goes(mid, WithPlan(sys, task, [BindOrAck(JOB, GUARD, sequence)])) && JOB !in sys.bindings
    ensures Goes(mid, WithPlan(sys, task, [Bind(JOB, Ack.AckBinding(GUARD, sequence))]))
  {
    var plan := [BindOrAck(JOB, GUARD, sequence)];
    EffectGoes(mid, WithPlan(sys, task, plan), task, BindOrAck(JOB, GUARD, sequence), 1);
    WithPlanTwice(sys, task, plan, [Bind(JOB, Ack.AckBinding(GUARD, sequence))]);
  }

  /** And is bound. */
  lemma DeliveryIsBound(mid: Sys, sys: Sys, task: nat, sequence: nat)
    requires Goes(mid, WithPlan(sys, task, [BindOrAck(JOB, GUARD, sequence)])) && JOB !in sys.bindings
    ensures Goes(mid, WithPlan(sys.(bindings := sys.bindings[JOB := Ack.AckBinding(GUARD, sequence)]), task, []))
  {
    var bind := Bind(JOB, Ack.AckBinding(GUARD, sequence));
    DeliveryIsAboutToBind(mid, sys, task, sequence);
    EffectGoes(mid, WithPlan(sys, task, [bind]), task, bind, 1);
    WithPlanTwice(sys.(bindings := sys.bindings[JOB := Ack.AckBinding(GUARD, sequence)]), task, [bind], []);
  }

  // ----- An exhausted job is retired early -----

  const STALE := StaleJob(JOB, WORKER, LEASE, JobState.Claimed, 1, 10, 10, 0)

  function AbandonedJob(): JobRow {
    AbandonedRow(ClaimedJob(), JobOutcome.InfraFailed)
  }

  function FinalRow(row: JobRow, finish: bool): JobRow {
    var move := FinalizeRequest(JOB, JobOutcome.InfraFailed, finish);
    MovedRow(row, move.to, move.evidence)
  }

  lemma RecoveryExhausts(w: World)
    requires Claimed(w)
    ensures Stands(After(w, DoRecover(STALE)), AbandonedJob(), 0)
    ensures Unconfirmed(After(w, DoRecover(STALE)), JOB) && After(w, DoRecover(STALE)).seen == map[]
  {}

  lemma SightingIsTaken(w: World)
    requires Stands(w, AbandonedJob(), 0) && Unconfirmed(w, JOB)
    ensures var w' := After(w, DoObserve(JOB));
      Stands(w', AbandonedJob(), 0) && Unconfirmed(w', JOB) && JOB in w'.seen && w'.seen[JOB].outcome.InfraFailed?
  {}

  lemma FinalizingHappens(w: World, row: JobRow, finish: bool)
    requires Stands(w, row, 0) && Unconfirmed(w, JOB) && JOB in w.seen && w.seen[JOB].outcome.InfraFailed?
    requires row == if finish then FinalRow(AbandonedJob(), false) else AbandonedJob()
    ensures var w' := After(w, DoFinalize(JOB, finish));
      Stands(w', FinalRow(row, finish), 0) && Unconfirmed(w', JOB) && w'.seen == w.seen
  {}

  /** From the claim to the end of the exhausted job, while its delivery stays bound. */
  lemma JobIsExhausted(mid: Sys, sys: Sys) returns (w: World)
    requires Goes(mid, sys) && Claimed(sys.world)
    ensures Goes(mid, sys.(world := w)) && Unconfirmed(w, JOB)
    ensures Stands(w, FinalRow(FinalRow(AbandonedJob(), false), true), 0)
  {
    RecoveryExhausts(sys.world);
    GoesByTransaction(mid, sys, DoRecover(STALE));
    var w1 := After(sys.world, DoRecover(STALE));
    SightingIsTaken(w1);
    GoesByTransaction(mid, sys.(world := w1), DoObserve(JOB));
    var w2 := After(w1, DoObserve(JOB));
    FinalizingHappens(w2, AbandonedJob(), false);
    GoesByTransaction(mid, sys.(world := w2), DoFinalize(JOB, false));
    var w3 := After(w2, DoFinalize(JOB, false));
    FinalizingHappens(w3, FinalRow(AbandonedJob(), false), true);
    GoesByTransaction(mid, sys.(world := w3), DoFinalize(JOB, true));
    w := After(w3, DoFinalize(JOB, true));
  }

  /** The early retirement does happen: in some history the only message of an exhausted job has been
      retired while its dead letter is unpublished. */
  lemma EarlyRetirementHappens() returns (sys: Sys)
    ensures ReachableSys(sys) && Unconfirmed(sys.world, JOB)
    ensures Highest(sys.stream, 0, JOB) && sys.stream[0].retired
  {
    var w0, mid := JobIsCreated();
    PublishAppends(mid, w0, [], {});
    var w1 := PublishedJobIsClaimed(mid, w0, [] + [MESSAGE], map[QueuedId(JOB) := 0], {} + {QueuedKey(JOB)});
    var sys1 := Untouched(w1, [] + [MESSAGE], map[QueuedId(JOB) := 0], {} + {QueuedKey(JOB)});
    DeliveryIsSeen(mid, sys1, 0, 0);
    DeliveryIsBound(mid, sys1, 0, 0);
    var sys2 := WithPlan(sys1.(bindings := sys1.bindings[JOB := Ack.AckBinding(GUARD, 0)]), 0, []);
    var w3 := JobIsExhausted(mid, sys2);
    var sys3 := sys2.(world := w3);
    GoesIsReachable(mid, sys3);
    assert Highest(sys3.stream, 0, JOB);
    sys := ReplayRetiresEarly(sys3, 1, JOB, GUARD, 1);
  }

  // ----- A lease is bound to a lower sequence -----

  const FIRST := Evidence(Some(JobOutcome.InfraFailed), false, false)
  const SECOND := Evidence(Some(JobOutcome.InfraFailed), true, false)
  const THIRD := Evidence(Some(JobOutcome.InfraFailed), true, true)

  function CollectingJob(): JobRow { MovedRow(ClaimedJob(), CollectingArtifacts, FIRST) }
  function CleaningJob(): JobRow { MovedRow(CollectingJob(), CleaningUp, SECOND) }
  function FailedJob(): JobRow { MovedRow(CleaningJob(), JobState.InfraFailed, THIRD) }

  function WorkerMove(from: JobState, to: JobState, evidence: Evidence): Step {
    DoMove(MoveRequest(JOB, from, to, evidence, Some(GUARD), 1))
  }

  lemma CollectingHappens(w: World)
    requires Stands(w, ClaimedJob(), 1)
    ensures Stands(After(w, WorkerMove(JobState.Claimed, CollectingArtifacts, FIRST)), CollectingJob(), 1)
  {}

  lemma CleaningHappens(w: World)
    requires Stands(w, CollectingJob(), 1)
    ensures Stands(After(w, WorkerMove(CollectingArtifacts, CleaningUp, SECOND)), CleaningJob(), 1)
  {}

  lemma FailingHappens(w: World)
    requires Stands(w, CleaningJob(), 1)
    ensures Stands(After(w, WorkerMove(CleaningUp, JobState.InfraFailed, THIRD)), FailedJob(), 0)
  {}

  /** The worker takes its job to the end. */
  lemma WorkerEndsJob(mid: Sys, sys: Sys) returns (w: World)
    requires Goes(mid, sys) && Claimed(sys.world)
    ensures Goes(mid, sys.(world := w)) && Stands(w, FailedJob(), 0)
  {
    CollectingHappens(sys.world);
    var w1 := MoveGoes(mid, sys, WorkerMove(JobState.Claimed, CollectingArtifacts, FIRST));
    CleaningHappens(w1);
    var w2 := MoveGoes(mid, sys.(world := w1), WorkerMove(CollectingArtifacts, CleaningUp, SECOND));
    FailingHappens(w2);
    w := MoveGoes(mid, sys.(world := w2), WorkerMove(CleaningUp, JobState.InfraFailed, THIRD));
  }

  lemma MoveGoes(mid: Sys, sys: Sys, step: Step) returns (w: World)
    requires Goes(mid, sys) && step.DoMove? && step.move.guard.Some?
    ensures w == After(sys.world, step) && Goes(mid, sys.(world := w))
  {
    GoesByTransaction(mid, sys, step);
    w := After(sys.world, step);
  }

  /** The end of the job is acknowledged and the binding dropped. */
  lemma EndIsAcknowledged(mid: Sys, sys: Sys, task: nat, sequence: nat) returns (stream: seq<Message>)
    requires Goes(mid, sys) && task !in sys.tasks && Stands(sys.world, FailedJob(), 0)
    requires JOB in sys.bindings && sys.bindings[JOB] == Ack.AckBinding(GUARD, sequence)
    ensures Goes(mid, WithPlan(sys.(stream := stream, bindings := sys.bindings - {JOB}), task, []))
  {
    GoesOn(mid, sys, WorkerFinished(task, JOB, GUARD));
    var sys1 := WithPlan(sys, task, [ConfirmAck(JOB, GUARD, FromWorker)]);
    assert Next(sys, WorkerFinished(task, JOB, GUARD)) == sys1;
    AcknowledgementGoes(mid, sys, sys1, task, sequence);
    stream := Retired(sys, sequence).stream;
  }

  lemma AcknowledgementGoes(mid: Sys, sys: Sys, sys1: Sys, task: nat, sequence: nat)
    requires Goes(mid, sys1) && sys1 == WithPlan(sys, task, [ConfirmAck(JOB, GUARD, FromWorker)])
    requires JOB in sys.bindings && sys.bindings[JOB] == Ack.AckBinding(GUARD, sequence)
    ensures Goes(mid, WithPlan(sys.(stream := Retired(sys, sequence).stream, bindings := sys.bindings - {JOB}), task, []))
  {
    ConfirmGoes(mid, sys, task, sequence);
    RetireGoes(mid, sys, task, sequence);
    UnbindGoes(mid, sys.(stream := Retired(sys, sequence).stream), task, sequence);
  }

  lemma ConfirmGoes(mid: Sys, sys: Sys, task: nat, sequence: nat)
    requires Goes(mid, WithPlan(sys, task, [ConfirmAck(JOB, GUARD, FromWorker)]))
    requires JOB in sys.bindings && sys.bindings[JOB] == Ack.AckBinding(GUARD, sequence)
    ensures Goes(mid, WithPlan(sys, task, [Retire(sequence), Unbind(JOB, GUARD, sequence, FromWorker)]))
  {
    var confirm := ConfirmAck(JOB, GUARD, FromWorker);
    EffectGoes(mid, WithPlan(sys, task, [confirm]), task, confirm, 1);
    WithPlanTwice(sys, task, [confirm], [Retire(sequence), Unbind(JOB, GUARD, sequence, FromWorker)]);
  }

  lemma RetireGoes(mid: Sys, sys: Sys, task: nat, sequence: nat)
    requires Goes(mid, WithPlan(sys, task, [Retire(sequence), Unbind(JOB, GUARD, sequence, FromWorker)]))
    ensures Goes(mid, WithPlan(sys.(stream := Retired(sys, sequence).stream), task, [Unbind(JOB, GUARD, sequence, FromWorker)]))
  {
    var unbind := Unbind(JOB, GUARD, sequence, FromWorker);
    var plan := [Retire(sequence), unbind];
    assert plan == [Retire(sequence)] + [unbind];
    GoesByEffect(mid, WithPlan(sys, task, plan), task, Retire(sequence), [unbind], 1);
    WithPlanTwice(sys.(stream := Retired(sys, sequence).stream), task, plan, [unbind]);
  }

  lemma UnbindGoes(mid: Sys, sys: Sys, task: nat, sequence: nat)
    requires Goes(mid, WithPlan(sys, task, [Unbind(JOB, GUARD, sequence, FromWorker)]))
    requires JOB in sys.bindings && sys.bindings[JOB] == Ack.AckBinding(GUARD, sequence)
    ensures Goes(mid, WithPlan(sys.(bindings := sys.bindings - {JOB}), task, []))
  {
    var unbind := Unbind(JOB, GUARD, sequence, FromWorker);
    EffectGoes(mid, WithPlan(sys, task, [unbind]), task, unbind, 1);
    WithPlanTwice(sys.(bindings := sys.bindings - {JOB}), task, [unbind], []);
  }

  /** The drop does happen: in some history a lease is bound to sequence 1 and, after its job has
      ended and been acknowledged, to sequence 0, by a delivery that was looked at under the live lease. */
  lemma SequenceDoesDrop() returns (before: Sys, after: Sys)
    ensures Goes(before, after)
    ensures Ack.Lookup(before.bindings, JOB, GUARD) == Ok(Ack.AckBinding(GUARD, 1))
    ensures Ack.Lookup(after.bindings, JOB, GUARD) == Ok(Ack.AckBinding(GUARD, 0))
  {
    var w0, mid := JobIsCreated();
    PublishAppends(mid, w0, [], {});
    WindowForgets(mid, w0, [] + [MESSAGE], 0, {} + {QueuedKey(JOB)});
    PublishAppends(mid, w0, [] + [MESSAGE], {} + {QueuedKey(JOB)});
    var stream, confirmed := [] + [MESSAGE] + [MESSAGE], {} + {QueuedKey(JOB)} + {QueuedKey(JOB)};
    var w1 := PublishedJobIsClaimed(mid, w0, stream, map[QueuedId(JOB) := 1], confirmed);
    var sys1 := Untouched(w1, stream, map[QueuedId(JOB) := 1], confirmed);
    DeliveryIsSeen(mid, sys1, 0, 1);
    DeliveryIsBound(mid, sys1, 0, 1);
    before := WithPlan(sys1.(bindings := sys1.bindings[JOB := Ack.AckBinding(GUARD, 1)]), 0, []);
    GoesIsReachable(mid, before);
    GoesNowhere(before);
    after := LowerIsBound(before);
  }

  lemma LowerIsBound(before: Sys) returns (after: Sys)
    requires Goes(before, before) && Claimed(before.world) && before.tasks == map[0 := []]
    requires |before.stream| == 2 && before.stream[0].body == BODY
    requires before.bindings == map[JOB := Ack.AckBinding(GUARD, 1)]
    ensures Goes(before, after) && Ack.Lookup(after.bindings, JOB, GUARD) == Ok(Ack.AckBinding(GUARD, 0))
  {
    DeliveryIsSeen(before, before, 1, 0);
    var sys1 := WithPlan(before, 1, [BindOrAck(JOB, GUARD, 0)]);
    var w := WorkerEndsJob(before, sys1);
    var sys2 := sys1.(world := w);
    var stream := EndIsAcknowledged(before, sys2, 2, 1);
    after := PendingIsBound(before, WithPlan(sys2.(stream := stream, bindings := sys2.bindings - {JOB}), 2, []));
  }

  lemma PendingIsBound(mid: Sys, sys: Sys) returns (after: Sys)
    requires Goes(mid, sys) && JOB !in sys.bindings && 1 in sys.tasks && sys.tasks[1] == [BindOrAck(JOB, GUARD, 0)]
    ensures Goes(mid, after) && Ack.Lookup(after.bindings, JOB, GUARD) == Ok(Ack.AckBinding(GUARD, 0))
  {
    assert sys == WithPlan(sys, 1, [BindOrAck(JOB, GUARD, 0)]);
    DeliveryIsBound(mid, sys, 1, 0);
    after := WithPlan(sys.(bindings := sys.bindings[JOB := Ack.AckBinding(GUARD, 0)]), 1, []);
  }

  // ----- The buffer is full -----

  const OTHER: JobId := "job_b"
  const OTHER_KEY: string := "other"
  const OTHER_REQUEST := CreateRequest(PROJECT, OTHER_KEY, SPEC, true)
  const DISPATCHER: string := "dispatcher"

  /** One project with room for two jobs. */
  function RoomyStart(): World {
    World(Db(map[PROJECT := Quota(2, 2)], map[], map[], map[], map[], []), map[], map[], 1)
  }

  lemma KeysDiffer()
    ensures ValidIdempotencyKey(KEY) && ValidIdempotencyKey(OTHER_KEY) && KEY != OTHER_KEY && JOB != OTHER
  {
    assert |KEY| == 3 && |OTHER_KEY| == 5 && JOB[4] == 'a' && OTHER[4] == 'b';
  }

  predicate OneJob(w: World) {
    && w.maxAttempts == 1 && w.db.projects == map[PROJECT := Quota(2, 2)] && w.seen == map[]
    && w.db.jobs == map[JOB := NewRow(REQUEST)] && w.db.keys == map[(PROJECT, KEY) := JOB]
    && w.db.outbox == map[QueuedKey(JOB) := OutboxRow(None, None, false)]
  }

  predicate TwoJobs(w: World) {
    && w.maxAttempts == 1 && w.seen == map[]
    && w.db.jobs == map[JOB := NewRow(REQUEST), OTHER := NewRow(OTHER_REQUEST)]
    && QueuedKey(JOB) in w.db.outbox && QueuedKey(OTHER) in w.db.outbox
  }

  lemma FirstIsCreated()
    ensures Enabled(RoomyStart(), CREATE) && OneJob(After(RoomyStart(), CREATE))
  {
    KeysDiffer();
    assert Rows(RoomyStart().db.jobs, IsOutstanding(PROJECT)) == {};
  }

  lemma SecondIsCreated(w: World)
    requires OneJob(w)
    ensures Enabled(w, DoCreate(OTHER_REQUEST, OTHER)) && TwoJobs(After(w, DoCreate(OTHER_REQUEST, OTHER)))
  {
    KeysDiffer();
    assert Rows(w.db.jobs, IsOutstanding(PROJECT)) == {JOB};
  }

  lemma SecondIsLeased(w: World)
    requires TwoJobs(w) && !w.db.outbox[QueuedKey(OTHER)].published
    ensures TwoJobs(After(w, DoLease(QueuedKey(OTHER), DISPATCHER)))
    ensures OwnsOutbox(After(w, DoLease(QueuedKey(OTHER), DISPATCHER)).db, QueuedKey(OTHER), DISPATCHER)
  {}

  lemma SecondIsPublished(w: World)
    requires TwoJobs(w) && OwnsOutbox(w.db, QueuedKey(OTHER), DISPATCHER)
    ensures TwoJobs(After(w, DoPublished(QueuedKey(OTHER), DISPATCHER)))
    ensures IsPublished(After(w, DoPublished(QueuedKey(OTHER), DISPATCHER)), QueuedKey(OTHER))
  {}

  predicate BothQueued(sys: Sys) {
    && TwoJobs(sys.world) && sys.buffer == map[] && sys.capacity == 1 && sys.tasks == map[]
    && |sys.stream| > 0 && sys.stream[0].body == BODY
  }

  lemma BothArePublished() returns (mid: Sys, sys: Sys)
    ensures Goes(mid, sys) && BothQueued(sys) && IsPublished(sys.world, QueuedKey(OTHER))
  {
    mid := Untouched(RoomyStart(), [], map[], {});
    FreshIsReachable(mid);
    GoesNowhere(mid);
    FirstIsCreated();
    GoesByTransaction(mid, mid, CREATE);
    var w1 := After(RoomyStart(), CREATE);
    SecondIsCreated(w1);
    GoesByTransaction(mid, Untouched(w1, [], map[], {}), DoCreate(OTHER_REQUEST, OTHER));
    var w2 := After(w1, DoCreate(OTHER_REQUEST, OTHER));
    SecondIsUnpublished(w1);
    sys := RowsArePublished(mid, Untouched(w2, [], map[], {}));
  }

  lemma SecondIsUnpublished(w: World)
    requires OneJob(w)
    ensures var w' := After(w, DoCreate(OTHER_REQUEST, OTHER)); TwoJobs(w') && !w'.db.outbox[QueuedKey(OTHER)].published
  {
    SecondIsCreated(w);
    KeysDiffer();
  }

  lemma FirstMessage(mid: Sys, w: World)
    requires TwoJobs(w) && Goes(mid, Untouched(w, [], map[], {}))
    ensures Goes(mid, Untouched(w, [MESSAGE], map[QueuedId(JOB) := 0], {QueuedKey(JOB)}))
  {
    KeysDiffer();
    GoesOn(mid, Untouched(w, [], map[], {}), PublishQueued(JOB));
    assert [] + [MESSAGE] == [MESSAGE] && {} + {QueuedKey(JOB)} == {QueuedKey(JOB)};
  }

  lemma RowsArePublished(mid: Sys, start: Sys) returns (sys: Sys)
    requires Goes(mid, start) && start == Untouched(start.world, [], map[], {}) && TwoJobs(start.world)
    requires !start.world.db.outbox[QueuedKey(OTHER)].published
    ensures Goes(mid, sys) && BothQueued(sys) && IsPublished(sys.world, QueuedKey(OTHER))
  {
    var w := start.world;
    FirstMessage(mid, w);
    var sys1 := Untouched(w, [MESSAGE], map[QueuedId(JOB) := 0], {QueuedKey(JOB)});
    var sys2 := SecondMessage(mid, sys1);
    SecondIsLeased(w);
    GoesByTransaction(mid, sys2, DoLease(QueuedKey(OTHER), DISPATCHER));
    var w1 := After(w, DoLease(QueuedKey(OTHER), DISPATCHER));
    SecondIsPublished(w1);
    GoesByTransaction(mid, sys2.(world := w1), DoPublished(QueuedKey(OTHER), DISPATCHER));
    sys := sys2.(world := After(w1, DoPublished(QueuedKey(OTHER), DISPATCHER)));
  }

  lemma SecondMessage(mid: Sys, sys: Sys) returns (sys': Sys)
    requires Goes(mid, sys) && BothQueued(sys)
    ensures Goes(mid, sys') && BothQueued(sys') && sys'.world == sys.world && QueuedKey(OTHER) in sys'.confirmed
  {
    KeysDiffer();
    GoesOn(mid, sys, PublishQueued(OTHER));
    sys' := Next(sys, PublishQueued(OTHER));
  }

  /** The refusal does happen: in some reachable system a job is queued and its row published, and no
      handler can bring it into the buffer, because another job fills it. */
  lemma FullBufferHappens() returns (sys: Sys)
    ensures ReachableSys(sys) && OTHER in sys.world.db.jobs && sys.world.db.jobs[OTHER].state.Queued?
    ensures IsPublished(sys.world, QueuedKey(OTHER)) && forall room :: room >= 2 ==> !CanBuffer(sys, OTHER, room)
  {
    var mid, sys0 := BothArePublished();
    KeysDiffer();
    DeliveryStarts(mid, sys0, 0, 0);
    var sys1 := WithPlan(sys0, 0, [Inspect(0)]);
    EffectGoes(mid, sys1, 0, Inspect(0), 0);
    FirstInspected(sys0);
    var sys2 := WithPlan(sys0, 0, [Offer(JOB, Pending(BODY, 0))]);
    EffectGoes(mid, sys2, 0, Offer(JOB, Pending(BODY, 0)), 0);
    sys := Execute(sys2, 0, Offer(JOB, Pending(BODY, 0)), [], 0);
    FirstFills(sys2);
    GoesIsReachable(mid, sys);
    forall room | room >= 2 ensures !CanBuffer(sys, OTHER, room) { QueuedJobCanBeBuffered(sys, OTHER, room); }
  }

  lemma FirstInspected(sys: Sys)
    requires BothQueued(sys)
    ensures Execute(WithPlan(sys, 0, [Inspect(0)]), 0, Inspect(0), [], 0) == WithPlan(sys, 0, [Offer(JOB, Pending(BODY, 0))])
  {
    WithPlanTwice(sys, 0, [Inspect(0)], [Offer(JOB, Pending(BODY, 0))]);
    InspectsAlike(sys);
  }

  /** What a handler finds does not depend on its own plan. */
  lemma InspectsAlike(sys: Sys)
    requires BothQueued(sys)
    ensures InspectEffect(WithPlan(sys, 0, [Inspect(0)]), 0, 0, 0) ==
      WithPlan(WithPlan(sys, 0, [Inspect(0)]), 0, [Offer(JOB, Pending(BODY, 0))])
  {
    KeysDiffer();
    assert Classify(BODY, JOB, NewRow(REQUEST), 0) == Buffer;
    assert After(sys.world, DoObserve(JOB)) == sys.world;
  }

  lemma FirstFills(sys: Sys)
    requires sys.buffer == map[] && sys.capacity == 1
    ensures var sys' := Execute(sys, 0, Offer(JOB, Pending(BODY, 0)), [], 0);
      |sys'.buffer| == sys'.capacity && OTHER !in sys'.buffer && sys'.world == sys.world
  {
    KeysDiffer();
  }
}
