/** What the handlers can always bring about, and where one of them is too early. */
module QueueProgress {
  import opened Base
  import opened Lifecycle
  import opened DeadLetters
  import opened Store
  import opened Runs
  import opened Invariant
  import opened Delivery
  import opened QueueProtocol
  import opened QueueSafety
  import opened QueueGuarantees
  import Ack = Acknowledgements

  // ----- Reachable systems and continuations -----

  ghost predicate HistoryTo(states: seq<Sys>, moves: seq<Move>, sys: Sys) {
    History(states, moves) && states[|moves|] == sys
  }

  ghost predicate ReachableSys(sys: Sys) {
    exists states, moves :: HistoryTo(states, moves, sys)
  }

  lemma FreshIsReachable(sys: Sys)
    requires Fresh(sys)
    ensures ReachableSys(sys)
  {
    assert HistoryTo([sys], [], sys);
  }

  lemma HistoryExtends(states: seq<Sys>, moves: seq<Move>, move: Move)
    requires History(states, moves) && CanMove(states[|moves|], move)
    ensures History(states + [Next(states[|moves|], move)], moves + [move])
  {
    var states', moves' := states + [Next(states[|moves|], move)], moves + [move];
    forall i {:trigger moves'[i]} | 0 <= i < |moves'|
      ensures CanMove(states'[i], moves'[i]) && states'[i + 1] == Next(states'[i], moves'[i])
    {
      if i < |moves| { assert moves'[i] == moves[i] && states'[i] == states[i] && states'[i + 1] == states[i + 1]; }
    }
  }

  lemma ReachableMove(sys: Sys, move: Move)
    requires ReachableSys(sys) && CanMove(sys, move)
    ensures ReachableSys(Next(sys, move))
  {
    var states, moves :| HistoryTo(states, moves, sys);
    HistoryExtends(states, moves, move);
    assert HistoryTo(states + [Next(sys, move)], moves + [move], Next(sys, move));
  }

  lemma ReachableSysIsOk(sys: Sys)
    requires ReachableSys(sys)
    ensures WorldOk(sys.world) && QueueOk(sys)
  {
    var states, moves :| HistoryTo(states, moves, sys);
    HistoriesAreOk(states, moves, |moves|);
  }

  /** An effect of a running handler, a delivery of a message that the consumer may still deliver, or
      the advisory about one that it has delivered max_deliver times. */
  predicate Handles(sys: Sys, move: Move) {
    match move
    case Deliver(_, sequence) => sequence < |sys.stream| && !sys.stream[sequence].retired && sequence !in sys.spent
    case AdvisoryArrives(_, sequence) => sequence < |sys.stream| && !sys.stream[sequence].retired && sequence in sys.spent
    case Perform(_, _) => true
    case _ => false
  }

  /** The moves lead from one system to the other, and handlers alone make them. */
  ghost predicate Leads(sys: Sys, moves: seq<Move>, sys': Sys)
    decreases |moves|
  {
    if moves == [] then sys' == sys
    else CanMove(sys, moves[0]) && Handles(sys, moves[0]) && Leads(Next(sys, moves[0]), moves[1..], sys')
  }

  lemma {:induction false} LeadsFurther(sys: Sys, moves: seq<Move>, sys': Sys, move: Move)
    requires Leads(sys, moves, sys') && CanMove(sys', move) && Handles(sys', move)
    ensures Leads(sys, moves + [move], Next(sys', move))
    decreases |moves|
  {
    if moves == [] {
      assert [move][1..] == [];
    } else {
      LeadsFurther(Next(sys, moves[0]), moves[1..], sys', move);
      assert (moves + [move])[1..] == moves[1..] + [move];
    }
  }

  /** Deliveries by the job consumer, each of which max_ack_pending has to leave room for. */
  function Deliveries(moves: seq<Move>): nat {
    if moves == [] then 0
    else Deliveries(moves[..|moves| - 1]) + if moves[|moves| - 1].Deliver? then 1 else 0
  }

  /** And with no more than `room` deliveries. */
  ghost predicate LeadsWithin(sys: Sys, moves: seq<Move>, sys': Sys, room: nat) {
    Leads(sys, moves, sys') && Deliveries(moves) <= room
  }

  lemma WithinFurther(sys: Sys, moves: seq<Move>, sys': Sys, room: nat, move: Move)
    requires LeadsWithin(sys, moves, sys', room) && CanMove(sys', move) && Handles(sys', move)
    ensures LeadsWithin(sys, moves + [move], Next(sys', move), room + if move.Deliver? then 1 else 0)
  {
    LeadsFurther(sys, moves, sys', move);
    assert (moves + [move])[..|moves|] == moves;
  }

  lemma UnusedTask(tasks: set<nat>) returns (task: nat)
    ensures forall t :: t in tasks ==> t < task
    decreases tasks
  {
    if tasks == {} {
      task := 0;
    } else {
      var t :| t in tasks;
      var above := UnusedTask(tasks - {t});
      assert forall u :: u in tasks ==> u == t || u in tasks - {t};
      task := if above > t then above else t + 1;
    }
  }

  // ----- The bounded buffer -----

  /** The buffer is within its capacity, and the consumer's counts are about messages of the stream. */
  ghost predicate RoomOk(sys: Sys) {
    |sys.buffer| <= sys.capacity && forall s :: s in sys.spent ==> s < |sys.stream|
  }

  predicate TouchesBuffer(effect: Effect) {
    effect.Offer? || effect.Replace? || effect.Requeue?
  }

  ghost predicate SameLimits(sys: Sys, sys': Sys) {
    sys'.capacity == sys.capacity && sys'.spent == sys.spent && |sys.stream| <= |sys'.stream|
  }

  lemma EffectKeepsLimits(sys: Sys, task: nat, effect: Effect, rest: Plan, now: Time)
    ensures SameLimits(sys, Execute(sys, task, effect, rest, now))
    ensures !TouchesBuffer(effect) ==> Execute(sys, task, effect, rest, now).buffer == sys.buffer
  {
    if effect.Inspect? || effect.Review? {
      LookupKeepsLimits(sys, task, effect, rest, now);
    } else if effect.Finalize? || effect.Letter? {
      TransactionKeepsLimits(sys, task, effect, rest, now);
    } else if effect.Redrive? || effect.Retire? {
      WriteKeepsLimits(sys, task, effect, rest, now);
    } else if TouchesBuffer(effect) {
      BufferEffectKeepsLimits(sys, task, effect, rest, now);
    } else {
      OtherEffectKeepsLimits(sys, task, effect, rest, now);
    }
  }

  lemma LookupKeepsLimits(sys: Sys, task: nat, effect: Effect, rest: Plan, now: Time)
    requires effect.Inspect? || effect.Review?
    ensures var sys' := Execute(sys, task, effect, rest, now); SameLimits(sys, sys') && sys'.buffer == sys.buffer
  {}

  lemma TransactionKeepsLimits(sys: Sys, task: nat, effect: Effect, rest: Plan, now: Time)
    requires effect.Finalize? || effect.Letter?
    ensures var sys' := Execute(sys, task, effect, rest, now); SameLimits(sys, sys') && sys'.buffer == sys.buffer
  {}

  lemma WriteKeepsLimits(sys: Sys, task: nat, effect: Effect, rest: Plan, now: Time)
    requires effect.Redrive? || effect.Retire?
    ensures var sys' := Execute(sys, task, effect, rest, now); SameLimits(sys, sys') && sys'.buffer == sys.buffer
  {}

  lemma BufferEffectKeepsLimits(sys: Sys, task: nat, effect: Effect, rest: Plan, now: Time)
    requires TouchesBuffer(effect)
    ensures SameLimits(sys, Execute(sys, task, effect, rest, now))
  {}

  lemma OtherEffectKeepsLimits(sys: Sys, task: nat, effect: Effect, rest: Plan, now: Time)
    requires !effect.Inspect? && !effect.Review? && !TouchesBuffer(effect)
    requires !effect.Finalize? && !effect.Letter? && !effect.Redrive? && !effect.Retire?
    ensures var sys' := Execute(sys, task, effect, rest, now); SameLimits(sys, sys') && sys'.buffer == sys.buffer
  {}

  /** What the buffer effects leave in the buffer. */
  lemma BufferEffects(sys: Sys, task: nat, effect: Effect, rest: Plan, now: Time)
    requires TouchesBuffer(effect)
    ensures var sys' := Execute(sys, task, effect, rest, now);
      || sys'.buffer == sys.buffer
      || (effect.Replace? && sys'.buffer.Keys == sys.buffer.Keys)
      || (effect.job !in sys.buffer && |sys.buffer| != sys.capacity && sys'.buffer == sys.buffer[effect.job := effect.pending])
  {
    if effect.Offer? { OfferAddsAtMostOne(sys, task, effect.job, effect.pending); }
  }

  lemma OfferAddsAtMostOne(sys: Sys, task: nat, job: JobId, pending: Pending)
    ensures var sys' := OfferEffect(sys, task, job, pending);
      || sys'.buffer == sys.buffer
      || (job !in sys.buffer && |sys.buffer| != sys.capacity && sys'.buffer == sys.buffer[job := pending])
  {}

  lemma SameKeys(a: map<JobId, Pending>, b: map<JobId, Pending>)
    requires a.Keys == b.Keys
    ensures |a| == |b|
  {
    assert |a.Keys| == |a| && |b.Keys| == |b|;
  }

  lemma EffectKeepsRoom(sys: Sys, task: nat, effect: Effect, rest: Plan, now: Time)
    requires |sys.buffer| <= sys.capacity
    ensures var sys' := Execute(sys, task, effect, rest, now);
      |sys'.buffer| <= sys'.capacity
      && (|sys.buffer| == sys.capacity ==> sys'.buffer.Keys == sys.buffer.Keys)
  {
    var sys' := Execute(sys, task, effect, rest, now);
    EffectKeepsLimits(sys, task, effect, rest, now);
    if TouchesBuffer(effect) {
      BufferEffects(sys, task, effect, rest, now);
      if sys'.buffer.Keys == sys.buffer.Keys { SameKeys(sys.buffer, sys'.buffer); }
    }
  }

  lemma MoveKeepsRoom(sys: Sys, move: Move)
    requires RoomOk(sys) && CanMove(sys, move)
    ensures RoomOk(Next(sys, move))
  {
    if move.Perform? {
      var effect, rest := sys.tasks[move.task][0], sys.tasks[move.task][1..];
      EffectKeepsRoom(sys, move.task, effect, rest, move.now);
      EffectKeepsLimits(sys, move.task, effect, rest, move.now);
    } else {
      OtherMoveKeepsRoom(sys, move);
    }
  }

  lemma OtherMoveKeepsRoom(sys: Sys, move: Move)
    requires RoomOk(sys) && CanMove(sys, move) && !move.Perform?
    ensures RoomOk(Next(sys, move))
  {
    OtherMoveBuffer(sys, move);
    OtherMoveSpent(sys, move);
    if move.Pop? { FewerKeys(sys.buffer, move.job); }
  }

  lemma OtherMoveBuffer(sys: Sys, move: Move)
    requires CanMove(sys, move) && !move.Perform?
    ensures Next(sys, move).capacity == sys.capacity
    ensures Next(sys, move).buffer ==
      if move.Pop? then sys.buffer - {move.job} else if move.Crash? then map[] else sys.buffer
  {}

  lemma OtherMoveSpent(sys: Sys, move: Move)
    requires CanMove(sys, move) && !move.Perform?
    ensures |sys.stream| <= |Next(sys, move).stream|
    ensures Next(sys, move).spent == if move.UseUp? then sys.spent + {move.exhausted} else sys.spent
  {}

  lemma FewerKeys(buffer: map<JobId, Pending>, job: JobId)
    ensures |buffer - {job}| <= |buffer|
  {
    assert (buffer - {job}).Keys == buffer.Keys - {job};
    assert |(buffer - {job}).Keys| == |buffer - {job}| && |buffer.Keys| == |buffer|;
  }

  lemma {:induction false} HistoriesHaveRoom(states: seq<Sys>, moves: seq<Move>, n: nat)
    requires History(states, moves) && n <= |moves|
    ensures RoomOk(states[n])
  {
    if n > 0 {
      HistoriesHaveRoom(states, moves, n - 1);
      assert CanMove(states[n - 1], moves[n - 1]) && states[n] == Next(states[n - 1], moves[n - 1]);
      MoveKeepsRoom(states[n - 1], moves[n - 1]);
    }
  }

  lemma ReachableHasRoom(sys: Sys)
    requires ReachableSys(sys)
    ensures RoomOk(sys)
  {
    var states, moves :| HistoryTo(states, moves, sys);
    HistoriesHaveRoom(states, moves, |moves|);
  }

  /** Handlers alone never take a job out of the buffer, so a full buffer stays as it is. */
  lemma {:induction false} FullStaysFull(sys: Sys, moves: seq<Move>, sys': Sys)
    requires Leads(sys, moves, sys') && |sys.buffer| == sys.capacity
    ensures sys'.buffer.Keys == sys.buffer.Keys
    decreases |moves|
  {
    if moves != [] {
      FullIsKept(sys, moves[0]);
      FullStaysFull(Next(sys, moves[0]), moves[1..], sys');
    }
  }

  lemma FullIsKept(sys: Sys, move: Move)
    requires CanMove(sys, move) && Handles(sys, move) && |sys.buffer| == sys.capacity
    ensures Next(sys, move).buffer.Keys == sys.buffer.Keys && |Next(sys, move).buffer| == Next(sys, move).capacity
  {
    if move.Perform? {
      var effect, rest := sys.tasks[move.task][0], sys.tasks[move.task][1..];
      EffectKeepsRoom(sys, move.task, effect, rest, move.now);
      EffectKeepsLimits(sys, move.task, effect, rest, move.now);
    }
    SameKeys(sys.buffer, Next(sys, move).buffer);
  }

  // ----- When a queued job can be buffered -----

  ghost predicate Waiting(sys: Sys, job: JobId) {
    && job in sys.world.db.jobs && sys.world.db.jobs[job].state.Queued?
    && RowOk(sys.world.db.jobs[job], sys.world.maxAttempts)
    && MarkerKey(job, sys.world.db.jobs[job]) !in sys.world.db.outbox
  }

  predicate HasPlace(sys: Sys, job: JobId) {
    job in sys.buffer || |sys.buffer| < sys.capacity
  }

  lemma QueuedIsNotObserved(w: World, job: JobId)
    requires job in w.db.jobs && w.db.jobs[job].state.Queued? && RowOk(w.db.jobs[job], w.maxAttempts)
    ensures After(w, DoObserve(job)) == w
  {}

  /** Looking at a delivery of a queued job: a canonical one is offered, another is replaced. */
  lemma InspectQueued(sys: Sys, task: nat, sequence: nat, job: JobId, now: Time)
    requires Waiting(sys, job) && NamesJob(sys.stream, sequence, job)
    ensures var row, body := sys.world.db.jobs[job], sys.stream[sequence].body;
      InspectEffect(sys, task, sequence, now) ==
        WithPlan(sys, task, if body == Canonical(job, row) then [Offer(job, Pending(body, sequence))]
                            else PoisonPlan(sequence, job, row))
  {
    QueuedIsNotObserved(sys.world, job);
  }

  lemma WithinByDelivery(origin: Sys, moves: seq<Move>, sys: Sys, room: nat, task: nat, sequence: nat)
    requires LeadsWithin(origin, moves, sys, room) && IsIdle(sys, task)
    requires sequence < |sys.stream| && !sys.stream[sequence].retired && sequence !in sys.spent
    ensures LeadsWithin(origin, moves + [Deliver(task, sequence)], WithPlan(sys, task, [Inspect(sequence)]), room + 1)
  {
    WithinFurther(origin, moves, sys, room, Deliver(task, sequence));
  }

  lemma WithinByAdvisory(origin: Sys, moves: seq<Move>, sys: Sys, room: nat, task: nat, sequence: nat)
    requires LeadsWithin(origin, moves, sys, room) && IsIdle(sys, task)
    requires sequence < |sys.stream| && !sys.stream[sequence].retired && sequence in sys.spent
    ensures LeadsWithin(origin, moves + [AdvisoryArrives(task, sequence)], WithPlan(sys, task, [Advise(sequence)]), room)
  {
    WithinFurther(origin, moves, sys, room, AdvisoryArrives(task, sequence));
  }

  lemma WithinByEffect(origin: Sys, moves: seq<Move>, sys: Sys, room: nat, task: nat, plan: Plan, now: Time)
    requires LeadsWithin(origin, moves, sys, room) && task in sys.tasks && plan != [] && sys.tasks[task] == plan
    ensures LeadsWithin(origin, moves + [Perform(task, now)], Execute(sys, task, plan[0], plan[1..], now), room)
  {
    WithinFurther(origin, moves, sys, room, Perform(task, now));
  }

  lemma ReplannedTwice(sys: Sys, task: nat, first: Plan, second: Plan)
    ensures WithPlan(WithPlan(sys, task, first), task, second) == WithPlan(sys, task, second)
  {
    assert sys.tasks[task := first][task := second] == sys.tasks[task := second];
  }

  /** Deliver a message and look at it. */
  lemma DeliveryIsInspected(origin: Sys, moves: seq<Move>, sys: Sys, room: nat, task: nat, sequence: nat, job: JobId, now: Time)
    requires LeadsWithin(origin, moves, sys, room) && IsIdle(sys, task) && sequence !in sys.spent
    requires Waiting(sys, job) && NamesJob(sys.stream, sequence, job) && !sys.stream[sequence].retired
    ensures var row, body := sys.world.db.jobs[job], sys.stream[sequence].body;
      LeadsWithin(origin, moves + [Deliver(task, sequence)] + [Perform(task, now)],
                  WithPlan(sys, task, if body == Canonical(job, row) then [Offer(job, Pending(body, sequence))]
                                      else PoisonPlan(sequence, job, row)), room + 1)
  {
    var plan := [Inspect(sequence)];
    var sys1 := WithPlan(sys, task, plan);
    WithinByDelivery(origin, moves, sys, room, task, sequence);
    WithinByEffect(origin, moves + [Deliver(task, sequence)], sys1, room + 1, task, plan, now);
    InspectQueued(sys1, task, sequence, job, now);
    ReplannedTwice(sys, task, plan, InspectEffect(sys1, task, sequence, now).tasks[task]);
  }

  lemma OfferBuffers(sys: Sys, task: nat, job: JobId, pending: Pending, now: Time)
    requires HasPlace(sys, job)
    ensures var sys' := Execute(sys, task, Offer(job, pending), [], now); job in sys'.buffer && sys'.world == sys.world
  {}

  /** A canonical message that may still be delivered brings its job into the buffer in three moves. */
  lemma CanonicalIsBuffered(origin: Sys, moves: seq<Move>, sys: Sys, room: nat, task: nat, sequence: nat, job: JobId, now: Time)
    returns (moves': seq<Move>, sys': Sys)
    requires LeadsWithin(origin, moves, sys, room) && IsIdle(sys, task) && HasPlace(sys, job) && sequence !in sys.spent
    requires Waiting(sys, job) && NamesJob(sys.stream, sequence, job) && !sys.stream[sequence].retired
    requires sys.stream[sequence].body == Canonical(job, sys.world.db.jobs[job])
    ensures LeadsWithin(origin, moves', sys', room + 1) && |moves'| == |moves| + 3
    ensures job in sys'.buffer && sys'.world == sys.world
  {
    var pending := Pending(sys.stream[sequence].body, sequence);
    var sys1 := WithPlan(sys, task, [Offer(job, pending)]);
    var first := moves + [Deliver(task, sequence)] + [Perform(task, now)];
    DeliveryIsInspected(origin, moves, sys, room, task, sequence, job, now);
    WithinByEffect(origin, first, sys1, room + 1, task, [Offer(job, pending)], now);
    OfferBuffers(sys1, task, job, pending, now);
    moves', sys' := first + [Perform(task, now)], Execute(sys1, task, Offer(job, pending), [], now);
  }

  /** The redrive of the highest message of a job was never published before: were its id still in
      the deduplication window, the window would point at a higher message. */
  lemma HighestIsNotRedriven(sys: Sys, i: nat, job: JobId)
    requires IdsOk(sys.stream, sys.ids) && Highest(sys.stream, i, job)
    ensures RedriveId(i) !in sys.ids
  {}

  /** What redriving leaves: the canonical message on top, everything else as it was. */
  lemma TopIsRedriven(sys: Sys, task: nat, i: nat, body: Body, rest: Plan, now: Time)
    requires RedriveId(i) !in sys.ids && task in sys.tasks
    ensures var sys' := Execute(sys, task, Redrive(i, body), rest, now);
      && sys'.world == sys.world && sys'.stream == sys.stream + [Message(body, false)]
      && sys'.tasks.Keys == sys.tasks.Keys && sys'.buffer == sys.buffer
      && sys'.capacity == sys.capacity && sys'.spent == sys.spent
  {}

  /** A handler that is about to redrive the highest message brings the job into the buffer by way
      of the replacement, which the consumer has not delivered yet. */
  lemma ReplacementIsBuffered(origin: Sys, moves: seq<Move>, sys: Sys, room: nat, task: nat, i: nat, job: JobId, now: Time)
    returns (moves': seq<Move>, sys': Sys)
    requires LeadsWithin(origin, moves, sys, room) && HasPlace(sys, job) && RoomOk(sys)
    requires Waiting(sys, job) && RedriveId(i) !in sys.ids && task in sys.tasks && IsIdle(sys, task + 1)
    requires sys.tasks[task] != [] && sys.tasks[task][0] == Redrive(i, Canonical(job, sys.world.db.jobs[job]))
    ensures LeadsWithin(origin, moves', sys', room + 1) && |moves'| == |moves| + 4
    ensures job in sys'.buffer && sys'.world == sys.world
  {
    var body, plan := Canonical(job, sys.world.db.jobs[job]), sys.tasks[task];
    WithinByEffect(origin, moves, sys, room, task, plan, now);
    TopIsRedriven(sys, task, i, body, plan[1..], now);
    var sys1 := Execute(sys, task, Redrive(i, body), plan[1..], now);
    moves', sys' := CanonicalIsBuffered(origin, moves + [Perform(task, now)], sys1, room, task + 1, |sys.stream|, job, now);
  }

  /** What the advisory handler plans for a queued job: redrive first, whatever the message says. */
  lemma AdvisedQueued(w: World, sequence: nat, body: Body, job: JobId, row: JobRow)
    requires row.state.Queued? && row.pending.None? && MarkerKey(job, row) !in w.db.outbox
    ensures var plan := AdvisedPlan(w, sequence, body, job, row); plan != [] && plan[0] == Redrive(sequence, Canonical(job, row))
  {}

  /** The advisory about a message delivered max_deliver times is taken up. */
  lemma AdvisoryIsTakenUp(origin: Sys, moves: seq<Move>, sys: Sys, room: nat, task: nat, i: nat, job: JobId, now: Time)
    requires LeadsWithin(origin, moves, sys, room) && IsIdle(sys, task) && i in sys.spent
    requires Waiting(sys, job) && NamesJob(sys.stream, i, job) && !sys.stream[i].retired
    ensures var row := sys.world.db.jobs[job];
      LeadsWithin(origin, moves + [AdvisoryArrives(task, i)] + [Perform(task, now)] + [Perform(task, now)],
                  WithPlan(sys, task, AdvisedPlan(sys.world, i, sys.stream[i].body, job, row)), room)
  {
    var advise, advised := [Advise(i)], [Advised(i, job, sys.world.db.jobs[job])];
    WithinByAdvisory(origin, moves, sys, room, task, i);
    WithinByEffect(origin, moves + [AdvisoryArrives(task, i)], WithPlan(sys, task, advise), room, task, advise, now);
    ReplannedTwice(sys, task, advise, advised);
    WithinByEffect(origin, moves + [AdvisoryArrives(task, i)] + [Perform(task, now)], WithPlan(sys, task, advised), room, task, advised, now);
    ReplannedTwice(sys, task, advised, AdvisedPlan(sys.world, i, sys.stream[i].body, job, sys.world.db.jobs[job]));
  }

  /** The highest message of a queued job brings it into a buffer that has a place: by delivery, by
      the replacement of a poison message, or by the replacement that the advisory handler publishes
      for a message delivered max_deliver times. */
  lemma TopIsBuffered(sys: Sys, i: nat, job: JobId, now: Time) returns (moves: seq<Move>, sys': Sys)
    requires Waiting(sys, job) && HasPlace(sys, job) && RoomOk(sys)
    requires NamesJob(sys.stream, i, job) && !sys.stream[i].retired && RedriveId(i) !in sys.ids
    ensures LeadsWithin(sys, moves, sys', 2) && |moves| <= 7
    ensures job in sys'.buffer && sys'.world == sys.world
  {
    var row, body := sys.world.db.jobs[job], sys.stream[i].body;
    var task := UnusedTask(sys.tasks.Keys);
    if i in sys.spent {
      var plan := AdvisedPlan(sys.world, i, body, job, row);
      AdvisoryIsTakenUp(sys, [], sys, 0, task, i, job, now);
      AdvisedQueued(sys.world, i, body, job, row);
      moves, sys' := ReplacementIsBuffered(
        sys, [] + [AdvisoryArrives(task, i)] + [Perform(task, now)] + [Perform(task, now)], WithPlan(sys, task, plan), 0,
        task, i, job, now);
    } else if body == Canonical(job, row) {
      moves, sys' := CanonicalIsBuffered(sys, [], sys, 0, task, i, job, now);
    } else {
      DeliveryIsInspected(sys, [], sys, 0, task, i, job, now);
      moves, sys' := ReplacementIsBuffered(
        sys, [] + [Deliver(task, i)] + [Perform(task, now)], WithPlan(sys, task, PoisonPlan(i, job, row)), 1, task, i, job, now);
    }
  }

  /** Handlers alone, with that much room for deliveries, can bring the job into the buffer. */
  ghost predicate CanBuffer(sys: Sys, job: JobId, room: nat) {
    exists moves, sys' :: LeadsWithin(sys, moves, sys', room) && job in sys'.buffer
  }

  /** In every reachable system in which a job is queued and its queue row is published, and in which
      max_ack_pending leaves room for two deliveries, the handlers can bring the job into the buffer if
      and only if it is there already or the buffer is not full. */
  lemma QueuedJobCanBeBuffered(sys: Sys, job: JobId, room: nat)
    requires ReachableSys(sys) && job in sys.world.db.jobs && sys.world.db.jobs[job].state.Queued?
    requires IsPublished(sys.world, QueuedKey(job)) && room >= 2
    ensures CanBuffer(sys, job, room) <==> job in sys.buffer || |sys.buffer| < sys.capacity
  {
    ReachableHasRoom(sys);
    if HasPlace(sys, job) {
      var i := TopMessage(sys, job);
      var moves, sys' := TopIsBuffered(sys, i, job, 0);
      assert LeadsWithin(sys, moves, sys', room);
    } else {
      forall moves, sys' | LeadsWithin(sys, moves, sys', room) ensures job !in sys'.buffer {
        FullStaysFull(sys, moves, sys');
      }
    }
  }

  lemma QueuedIsUnmarked(w: World, job: JobId)
    requires MarkersOk(w) && job in w.db.jobs && w.db.jobs[job].state.Queued?
    ensures MarkerKey(job, w.db.jobs[job]) !in w.db.outbox
  {
    assert !Exhausted(w, job);
  }

  lemma TopMessage(sys: Sys, job: JobId) returns (i: nat)
    requires ReachableSys(sys) && job in sys.world.db.jobs && sys.world.db.jobs[job].state.Queued?
    requires IsPublished(sys.world, QueuedKey(job))
    ensures Waiting(sys, job) && Highest(sys.stream, i, job) && !sys.stream[i].retired && RedriveId(i) !in sys.ids
  {
    ReachableSysIsOk(sys);
    RowsArePlain(sys.world, job);
    MarkersAreOk(sys.world);
    QueuedIsUnmarked(sys.world, job);
    PublishedJobIsDeliverable(sys, job);
    i :| Highest(sys.stream, i, job) && !sys.stream[i].retired;
    HighestIsNotRedriven(sys, i, job);
  }

  // ----- A replayed terminal transition is early -----

  /** Wherever an exhausted job has ended with its dead letter unpublished and its last message still
      bound to a lease, a replayed terminal transition under that lease retires the message. */
  lemma ReplayRetiresEarly(sys: Sys, task: nat, job: JobId, guard: Guard, now: Time) returns (sys': Sys)
    requires ReachableSys(sys) && IsIdle(sys, task) && Ended(sys, job) && Unconfirmed(sys.world, job)
    requires Bound(sys, job, guard).Some? && Highest(sys.stream, Bound(sys, job, guard).value.sequence, job)
    ensures ReachableSys(sys') && Unconfirmed(sys'.world, job)
    ensures var i := Bound(sys, job, guard).value.sequence; i < |sys'.stream| && sys'.stream[i].retired
    ensures Highest(sys'.stream, Bound(sys, job, guard).value.sequence, job)
  {
    var i := Bound(sys, job, guard).value.sequence;
    var sys2 := ReplayConfirms(sys, task, job, guard, now);
    AcksAreRetirements(sys2, task, i, now);
    ReachableMove(sys2, Perform(task, now));
    sys' := Next(sys2, Perform(task, now));
    RetiringKeepsNames(sys.stream, i, job);
  }

  lemma ReplayConfirms(sys: Sys, task: nat, job: JobId, guard: Guard, now: Time) returns (sys': Sys)
    requires ReachableSys(sys) && IsIdle(sys, task) && Ended(sys, job) && Bound(sys, job, guard).Some?
    ensures ReachableSys(sys')
    ensures var i := Bound(sys, job, guard).value.sequence;
      sys' == WithPlan(sys, task, [Retire(i), Unbind(job, guard, i, FromReplay)])
  {
    var i := Bound(sys, job, guard).value.sequence;
    var start := ReplayedTerminal(task, job, guard, sys.world.db.jobs[job].state);
    ReachableMove(sys, start);
    var sys1 := WithPlan(sys, task, [ConfirmAck(job, guard, FromReplay)]);
    assert Next(sys, start) == sys1;
    ReachableMove(sys1, Perform(task, now));
    sys' := WithPlan(sys1, task, [Retire(i), Unbind(job, guard, i, FromReplay)]);
    assert Next(sys1, Perform(task, now)) == sys';
  }

  lemma AcksAreRetirements(sys: Sys, task: nat, i: nat, now: Time)
    requires HasHead(sys, task) && sys.tasks[task][0] == Retire(i) && i < |sys.stream|
    ensures var sys' := Next(sys, Perform(task, now));
      sys'.stream == sys.stream[i := sys.stream[i].(retired := true)] && sys'.world == sys.world
  {}

  lemma RetiringKeepsNames(stream: seq<Message>, i: nat, job: JobId)
    requires Highest(stream, i, job)
    ensures Highest(stream[i := stream[i].(retired := true)], i, job)
  {
    var stream' := stream[i := stream[i].(retired := true)];
    forall k: nat | i < k ensures !NamesJob(stream', k, job) {
      assert NamesJob(stream', k, job) <==> NamesJob(stream, k, job);
    }
  }

  // ----- The handlers and the registry -----

  /** Undisturbed, rebinding a delivery is the registry's rebind. */
  lemma BindOrAckIsRebind(sys: Sys, task: nat, job: JobId, guard: Guard, sequence: nat)
    ensures var plan, rebound := BindOrAckPlan(sys, job, guard, sequence), Ack.Applied(sys.bindings, Ack.Rebind(job, Ack.AckBinding(guard, sequence)));
      if |plan| > 0 && plan[|plan| - 1].Bind? then
        rebound == sys.bindings[plan[|plan| - 1].job := plan[|plan| - 1].binding]
      else rebound == sys.bindings
  {}

  /** Dropping a binding, by whichever handler, is the registry's removal. */
  lemma DropsAreRemovals(sys: Sys, task: nat, job: JobId, guard: Guard)
    ensures TakeEffect(sys, task, job, guard).bindings == Ack.Applied(sys.bindings, Ack.RemoveBinding(job, guard))
    ensures Next(sys, Nak(job, guard)).bindings == Ack.Applied(sys.bindings, Ack.RemoveBinding(job, guard))
    ensures forall sequence, cause ::
      var bindings := UnbindEffect(sys, task, job, guard, sequence, cause).bindings;
      bindings == sys.bindings || bindings == Ack.Applied(sys.bindings, Ack.RemoveBinding(job, guard))
  {}
}
