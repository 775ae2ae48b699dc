/** The result finalizer: a bounded loop that pushes a finished job to its terminal state while
    other requests and the reconciler act on the same job between its database accesses. */
module Finalizer {
  import opened Base
  import opened Lifecycle
  import opened DeadLetters
  import opened Store
  import opened Runs
  import opened Invariant

  datatype Reply = Confirmed | Accepted | StaleLease | RetryLater

  datatype Progress = Done(reply: Reply) | GoOn(state: JobState)

  function NextResultState(state: JobState, result: JobResult): Option<JobState> {
    if state.Rank() <= 6 then Some(CollectingArtifacts)
    else if state.CollectingArtifacts? && result.artifacts then Some(CleaningUp)
    else if state.CleaningUp? && result.cleanup then Some(TerminalState(result.outcome))
    else None
  }

  /** What happens around one pass of the loop: the steps others take before its transition, the
      clock the transition sees, and the steps they take before the snapshot that follows a lost race. */
  datatype Slot = Slot(before: seq<Step>, now: Time, between: seq<Step>)

  function Interfere(w: World, steps: seq<Step>): World
    decreases |steps|
  {
    if steps == [] then w
    else Interfere(if Enabled(w, steps[0]) then After(w, steps[0]) else w, steps[1..])
  }

  function RequestFor(result: JobResult, state: JobState, target: JobState, now: Time): MoveRequest {
    MoveRequest(result.job, state, target, Evidence(Some(result.outcome), result.artifacts, result.cleanup),
                Some(Guard(result.worker, result.lease)), now)
  }

  /** After a lost race: was the job finished by someone else, taken away, or only moved on? */
  function Reread(w: World, result: JobResult): Progress {
    if result.job !in w.db.jobs then Done(StaleLease)
    else
      var row := w.db.jobs[result.job];
      if row.state.Terminal() then
        if row.outcome == Some(result.outcome) && row.worker == Some(result.worker) then Done(Confirmed)
        else Done(StaleLease)
      else if row.worker != Some(result.worker) || row.lease != Some(result.lease)
        || row.pending != Some(result.outcome) then Done(StaleLease)
      else GoOn(row.state)
  }

  function ErrorReply(error: RepoError): Reply {
    match error
    case NotFound => StaleLease
    case CasLost => StaleLease
    case Conflict => StaleLease
    case BadTransition(_) => StaleLease
    case _ => RetryLater
  }

  /** The transition of one pass, in the world that it finds. */
  function Transition(w: World, result: JobResult, state: JobState, target: JobState, slot: Slot): (World, Progress) {
    var move := RequestFor(result, state, target, slot.now);
    match MoveRefusal(w.db, move)
    case None => (After(w, DoMove(move)), GoOn(target))
    case Some(error) =>
      if error.CasLost? || error.Conflict? then
        var w' := Interfere(w, slot.between);
        (w', Reread(w', result))
      else (w, Done(ErrorReply(error)))
  }

  function Pass(w: World, result: JobResult, state: JobState, slot: Slot): (World, Progress) {
    if state.Terminal() then (w, Done(Confirmed))
    else
      match NextResultState(state, result)
      case None => (w, Done(Accepted))
      case Some(target) => Transition(Interfere(w, slot.before), result, state, target, slot)
  }

  function Drive(w: World, result: JobResult, state: JobState, slots: seq<Slot>): (World, Reply)
    decreases |slots|
  {
    if slots == [] then (w, RetryLater)
    else
      var (w', progress) := Pass(w, result, state, slots[0]);
      match progress
      case Done(reply) => (w', reply)
      case GoOn(state') => Drive(w', result, state', slots[1..])
  }

  const PASSES: nat := 6

  method DriveResultFinalizer(w0: World, result: JobResult, start: JobState, slots: seq<Slot>)
    returns (w: World, reply: Reply)
    requires |slots| == PASSES
    ensures (w, reply) == Drive(w0, result, start, slots)
  {
    w := w0;
    var state := start;
    for i := 0 to PASSES
      invariant Drive(w, result, state, slots[i..]) == Drive(w0, result, start, slots)
    {
      var (w', progress) := Pass(w, result, state, slots[i]);
      assert slots[i..][1..] == slots[i + 1..];
      w := w';
      match progress
      case Done(r) => return w, r;
      case GoOn(state') => state := state';
    }
    reply := RetryLater;
  }

  // ----- What the finalizer follows -----

  predicate Holds(row: JobRow, result: JobResult) {
    row.worker == Some(result.worker) && row.lease == Some(result.lease)
  }

  /** The job is under the finalizer's lease with its result recorded and has come at least as far
      as the finalizer knows, or that lease has ended; and the finalizer believes in a terminal
      state only if the job is in it, under the result's outcome. */
  predicate Follows(row: JobRow, result: JobResult, state: JobState) {
    && (row.lease == Some(result.lease) ==>
          Holds(row, result) && row.pending == Some(result.outcome) && state.Rank() <= row.state.Rank())
    && (state.Terminal() ==> row.state == state == TerminalState(result.outcome))
  }

  predicate Following(w: World, result: JobResult, state: JobState) {
    && result.job in w.db.jobs && result.lease in w.issued
    && Follows(w.db.jobs[result.job], result, state)
  }

  lemma RowFollows(w: World, j: JobId, row: JobRow, change: Change, result: JobResult, state: JobState)
    requires RowOk(row, w.maxAttempts) && Lawful(w, j, row, change) && result.lease in w.issued
    requires Follows(row, result, state)
    ensures Follows(Changed(row, change), result, state)
    ensures Changed(row, change).lease == Some(result.lease) ==>
      row.lease == Some(result.lease) && row.state.Rank() <= Changed(row, change).state.Rank()
  {}

  lemma StepFollows(w: World, step: Step, result: JobResult, state: JobState)
    requires Reachable(w) && Enabled(w, step) && Following(w, result, state)
    ensures Following(After(w, step), result, state)
    ensures var row, row' := w.db.jobs[result.job], After(w, step).db.jobs[result.job];
      row'.lease == Some(result.lease) ==> row.lease == Some(result.lease) && row.state.Rank() <= row'.state.Rank()
  {
    var j := result.job;
    ReachableIsOk(w);
    StepChanges(w, step, j);
    StepKeepsIssued(w, step);
    RowFollows(w, j, w.db.jobs[j], ChangeOf(w, step, j), result, state);
  }

  lemma {:induction false} InterferenceFollows(w: World, steps: seq<Step>, result: JobResult, state: JobState)
    requires Reachable(w) && Following(w, result, state)
    ensures Reachable(Interfere(w, steps)) && Following(Interfere(w, steps), result, state)
    ensures var row, row' := w.db.jobs[result.job], Interfere(w, steps).db.jobs[result.job];
      row'.lease == Some(result.lease) ==> row.lease == Some(result.lease) && row.state.Rank() <= row'.state.Rank()
    decreases |steps|
  {
    if steps != [] {
      if Enabled(w, steps[0]) {
        ReachableStep(w, steps[0]);
        StepFollows(w, steps[0], result, state);
        InterferenceFollows(After(w, steps[0]), steps[1..], result, state);
      } else {
        InterferenceFollows(w, steps[1..], result, state);
      }
    }
  }

  /** If the job still holds the lease when a transition runs, the lease has not expired. */
  predicate Live(w: World, result: JobResult, now: Time) {
    result.job in w.db.jobs && w.db.jobs[result.job].lease == Some(result.lease) ==>
      w.db.jobs[result.job].expires.Some? && w.db.jobs[result.job].expires.value > now
  }

  /** At every transition of the drive. */
  predicate LiveThroughout(w: World, result: JobResult, state: JobState, slots: seq<Slot>)
    decreases |slots|
  {
    slots == [] ||
    (&& Live(Interfere(w, slots[0].before), result, slots[0].now)
     && var (w', progress) := Pass(w, result, state, slots[0]);
        progress.GoOn? ==> LiveThroughout(w', result, progress.state, slots[1..]))
  }

  /** The rank at which the finalizer has nothing left to do on this evidence. */
  function Goal(result: JobResult): nat {
    if result.cleanup then 9 else if result.artifacts then 8 else 7
  }

  predicate Consistent(result: JobResult) {
    result.cleanup ==> result.artifacts
  }

  /** Whether the contract lets the outcome into artifact collection from a state. */
  predicate Admissible(state: JobState, outcome: JobOutcome) {
    state.Rank() < 5 ==> EarlyOutcomeAllowed(state, outcome)
  }

  lemma GoalIsWhereItStops(state: JobState, result: JobResult)
    requires Consistent(result)
    ensures state.Terminal() || NextResultState(state, result).None? <==> state.Rank() >= Goal(result)
  {}

  /** The transition of a pass: it succeeds, or it finds the job moved on or gone, or the contract
      refuses the outcome; a row constraint never stops it. */
  lemma TransitionIsLegal(w: World, result: JobResult, state: JobState, target: JobState, now: Time)
    requires Following(w, result, state) && RowOk(w.db.jobs[result.job], w.maxAttempts)
    requires Consistent(result) && !state.Terminal() && NextResultState(state, result) == Some(target)
    requires Live(w, result, now)
    ensures var refusal := MoveRefusal(w.db, RequestFor(result, state, target, now));
      && (refusal.Some? ==> refusal.value.CasLost? || refusal.value.BadTransition?)
      && (refusal.Some? && refusal.value.BadTransition? <==> !Admissible(state, result.outcome))
      && (refusal == Some(CasLost) && w.db.jobs[result.job].lease == Some(result.lease) ==>
            w.db.jobs[result.job].state != state)
  {}

  /** A pass that goes on has moved strictly forward. */
  lemma PassAdvances(w: World, result: JobResult, state: JobState, slot: Slot)
    requires Reachable(w) && Following(w, result, state) && Consistent(result)
    requires Live(Interfere(w, slot.before), result, slot.now)
    ensures Reachable(Pass(w, result, state, slot).0)
    ensures Pass(w, result, state, slot).1.GoOn? ==>
      && Following(Pass(w, result, state, slot).0, result, Pass(w, result, state, slot).1.state)
      && state.Rank() < Pass(w, result, state, slot).1.state.Rank()
      && state.Rank() < Goal(result) && Admissible(state, result.outcome)
    ensures Pass(w, result, state, slot).1 != Done(RetryLater)
  {
    GoalIsWhereItStops(state, result);
    if !state.Terminal() && NextResultState(state, result).Some? {
      InterferenceFollows(w, slot.before, result, state);
      TransitionAdvances(Interfere(w, slot.before), result, state, NextResultState(state, result).value, slot);
    }
  }

  lemma MoveFollows(w: World, result: JobResult, state: JobState, target: JobState, move: MoveRequest)
    requires Reachable(w) && result.job in w.db.jobs && result.lease in w.issued
    requires move == RequestFor(result, state, target, move.now) && MoveRefusal(w.db, move).None?
    ensures Reachable(After(w, DoMove(move))) && Following(After(w, DoMove(move)), result, target)
  {
    ReachableStep(w, DoMove(move));
  }

  /** What a snapshot shows after a race that was lost under the live lease. */
  lemma RereadAdvances(w: World, result: JobResult, state: JobState)
    requires Following(w, result, state)
    requires w.db.jobs[result.job].lease == Some(result.lease) ==> state.Rank() < w.db.jobs[result.job].state.Rank()
    ensures Reread(w, result).GoOn? ==>
      Following(w, result, Reread(w, result).state) && state.Rank() < Reread(w, result).state.Rank()
    ensures Reread(w, result) != Done(RetryLater)
  {}

  lemma DistinctRanks(a: JobState, b: JobState)
    requires a.Rank() <= b.Rank() && a != b && !a.Terminal()
    ensures a.Rank() < b.Rank()
  {}

  lemma TransitionAdvances(w: World, result: JobResult, state: JobState, target: JobState, slot: Slot)
    requires Reachable(w) && Following(w, result, state) && Consistent(result) && Live(w, result, slot.now)
    requires !state.Terminal() && NextResultState(state, result) == Some(target)
    ensures var (w', progress) := Transition(w, result, state, target, slot);
      && Reachable(w')
      && (progress.GoOn? ==>
            Following(w', result, progress.state) && state.Rank() < progress.state.Rank()
            && Admissible(state, result.outcome))
      && progress != Done(RetryLater)
  {
    var move := RequestFor(result, state, target, slot.now);
    RowIsOk(w, result.job);
    TransitionIsLegal(w, result, state, target, slot.now);
    if MoveRefusal(w.db, move).None? {
      MoveFollows(w, result, state, target, move);
    } else if MoveRefusal(w.db, move) == Some(CasLost) {
      LostRaceAdvances(w, result, state, slot);
    }
  }

  /** A race that is lost to a job still under the lease is lost to a later state. */
  lemma LostRaceAdvances(w: World, result: JobResult, state: JobState, slot: Slot)
    requires Reachable(w) && Following(w, result, state) && !state.Terminal()
    requires w.db.jobs[result.job].lease == Some(result.lease) ==> w.db.jobs[result.job].state != state
    ensures var w' := Interfere(w, slot.between);
      && Reachable(w') && Reread(w', result) != Done(RetryLater)
      && (Reread(w', result).GoOn? ==>
            Following(w', result, Reread(w', result).state) && state.Rank() < Reread(w', result).state.Rank())
  {
    InterferenceFollows(w, slot.between, result, state);
    var row := w.db.jobs[result.job];
    if row.lease == Some(result.lease) { DistinctRanks(state, row.state); }
    RereadAdvances(Interfere(w, slot.between), result, state);
  }

  lemma RowIsOk(w: World, job: JobId)
    requires Reachable(w) && job in w.db.jobs
    ensures RowOk(w.db.jobs[job], w.maxAttempts)
  {
    ReachableIsOk(w);
  }

  /** With a live lease the finalizer runs out of passes only if its goal is that far away. */
  lemma {:induction false} DriveSuffices(w: World, result: JobResult, state: JobState, slots: seq<Slot>)
    requires Reachable(w) && Following(w, result, state) && Consistent(result)
    requires LiveThroughout(w, result, state, slots)
    requires slots != [] && (Goal(result) < state.Rank() + |slots| || !Admissible(state, result.outcome))
    ensures Drive(w, result, state, slots).1 != RetryLater
    decreases |slots|
  {
    PassAdvances(w, result, state, slots[0]);
    var (w', progress) := Pass(w, result, state, slots[0]);
    if progress.GoOn? { DriveSuffices(w', result, progress.state, slots[1..]); }
  }

  // ----- Where it leaves the job -----

  /** An accepted result has come as far as its evidence allows, and a confirmed one is terminal,
      unless the lease was taken away meanwhile. */
  lemma {:induction false} DriveReachesGoal(w: World, result: JobResult, state: JobState, slots: seq<Slot>)
    requires Reachable(w) && Following(w, result, state) && Consistent(result)
    requires LiveThroughout(w, result, state, slots)
    ensures Following(Drive(w, result, state, slots).0, result, state)
    ensures var (w', reply) := Drive(w, result, state, slots);
      reply.Accepted? && w'.db.jobs[result.job].lease == Some(result.lease) ==>
        w'.db.jobs[result.job].state.Rank() >= Goal(result)
    ensures var (w', reply) := Drive(w, result, state, slots);
      reply.Confirmed? ==> w'.db.jobs[result.job].state == TerminalState(result.outcome)
    decreases |slots|
  {
    if slots != [] {
      PassAdvances(w, result, state, slots[0]);
      GoalIsWhereItStops(state, result);
      var (w', progress) := Pass(w, result, state, slots[0]);
      if progress.GoOn? { DriveReachesGoal(w', result, progress.state, slots[1..]); } else { PassFollows(w, result, state, slots[0]); }
    }
  }

  lemma PassFollows(w: World, result: JobResult, state: JobState, slot: Slot)
    requires Reachable(w) && Following(w, result, state)
    requires Pass(w, result, state, slot).1.Done?
    ensures Following(Pass(w, result, state, slot).0, result, state)
    ensures Pass(w, result, state, slot).1.reply.Confirmed? ==>
      Pass(w, result, state, slot).0.db.jobs[result.job].state == TerminalState(result.outcome)
  {
    if !state.Terminal() && NextResultState(state, result).Some? {
      var w1 := Interfere(w, slot.before);
      InterferenceFollows(w, slot.before, result, state);
      InterferenceFollows(w1, slot.between, result, state);
      RowIsOk(Interfere(w1, slot.between), result.job);
    }
  }

  /** A race that is lost because the job has ended meanwhile: the result is confirmed exactly when
      the job ended under its outcome by its own worker, and otherwise the lease is stale. */
  lemma LostToTheEnd(w: World, result: JobResult, state: JobState, slot: Slot)
    requires Consistent(result) && !state.Terminal() && state.Rank() < Goal(result) && Admissible(state, result.outcome)
    requires slot.before == [] && slot.between == [] && result.job in w.db.jobs && w.db.jobs[result.job].state.Terminal()
    ensures var row := w.db.jobs[result.job];
      Pass(w, result, state, slot) ==
        (w, Done(if row.outcome == Some(result.outcome) && row.worker == Some(result.worker) then Confirmed else StaleLease))
  {
    GoalIsWhereItStops(state, result);
    assert Interfere(w, []) == w;
  }

  /** And one that is lost because another holds the job, or nobody does, ends in a stale lease. */
  lemma LostToAnother(w: World, result: JobResult, state: JobState, slot: Slot)
    requires Consistent(result) && !state.Terminal() && state.Rank() < Goal(result) && Admissible(state, result.outcome)
    requires slot.before == [] && slot.between == []
    requires result.job in w.db.jobs ==> !w.db.jobs[result.job].state.Terminal() && w.db.jobs[result.job].lease != Some(result.lease)
    ensures Pass(w, result, state, slot) == (w, Done(StaleLease))
  {
    GoalIsWhereItStops(state, result);
    assert Interfere(w, []) == w;
  }

  // ----- When the budget is not enough -----

  /** One lifecycle edge at a time. */
  function Successor(state: JobState): JobState {
    match state
    case Claimed => ProvisioningRuntime
    case ProvisioningRuntime => Booting
    case Booting => InstallingApk
    case InstallingApk => RunningTests
    case RunningTests => DebugAvailable
    case DebugAvailable => CollectingArtifacts
    case _ => CleaningUp
  }

  /** Another request under the same lease that wins the next edge. */
  function RivalMove(result: JobResult, state: JobState, now: Time): MoveRequest {
    MoveRequest(result.job, state, Successor(state), Evidence(Some(result.outcome), true, false),
                Some(Guard(result.worker, result.lease)), now)
  }

  predicate Holding(w: World, result: JobResult, state: JobState, now: Time) {
    && result.job in w.db.jobs && Holds(w.db.jobs[result.job], result)
    && w.db.jobs[result.job].pending == Some(result.outcome)
    && w.db.jobs[result.job].state == state && 1 <= state.Rank() <= 8
    && w.db.jobs[result.job].expires.Some? && w.db.jobs[result.job].expires.value > now
  }

  lemma RivalWins(w: World, result: JobResult, state: JobState, now: Time)
    requires Reachable(w) && Holding(w, result, state, now) && state.Rank() <= 7
    ensures var w' := Interfere(w, [DoMove(RivalMove(result, state, now))]);
      Reachable(w') && Holding(w', result, Successor(state), now)
  {
    var step := DoMove(RivalMove(result, state, now));
    RowIsOk(w, result.job);
    ReachableStep(w, step);
    assert Interfere(w, [step]) == Interfere(After(w, step), []);
  }

  /** The finalizer then finds its edge taken and reads the new state. */
  lemma LosesRace(w: World, result: JobResult, state: JobState, target: JobState, slot: Slot)
    requires Holding(w, result, Successor(state), slot.now) && Consistent(result) && slot.between == []
    requires 1 <= state.Rank() <= 7 && NextResultState(state, result) == Some(target) && Admissible(state, result.outcome)
    ensures Transition(w, result, state, target, slot) == (w, GoOn(Successor(state)))
  {}

  lemma SlowPass(w: World, result: JobResult, state: JobState, slot: Slot)
    requires Reachable(w) && Holding(w, result, state, slot.now) && Consistent(result)
    requires slot == Slot([DoMove(RivalMove(result, state, slot.now))], slot.now, [])
    requires state.Rank() + 1 < Goal(result) && Admissible(state, result.outcome)
    ensures var w' := Interfere(w, slot.before);
      && Reachable(w') && Holding(w', result, Successor(state), slot.now) && Live(w', result, slot.now)
      && Pass(w, result, state, slot) == (w', GoOn(Successor(state)))
  {
    RivalWins(w, result, state, slot.now);
    GoalIsWhereItStops(state, result);
    LosesRace(Interfere(w, slot.before), result, state, NextResultState(state, result).value, slot);
  }

  lemma LastPass(w: World, result: JobResult, state: JobState, now: Time)
    requires Reachable(w) && Holding(w, result, state, now) && Consistent(result)
    requires state.Rank() < Goal(result) && Admissible(state, result.outcome)
    ensures Live(w, result, now) && Pass(w, result, state, Slot([], now, [])).1.GoOn?
  {
    RowIsOk(w, result.job);
    GoalIsWhereItStops(state, result);
    assert Interfere(w, []) == w;
  }

  lemma ExhaustsLater(w: World, result: JobResult, state: JobState, slots: seq<Slot>)
    requires slots != [] && Live(Interfere(w, slots[0].before), result, slots[0].now)
    requires var (w', progress) := Pass(w, result, state, slots[0]);
      progress.GoOn? && (slots[1..] == [] || Exhausts(w', result, progress.state, slots[1..]))
    ensures Exhausts(w, result, state, slots)
  {}

  /** Some interference of `n` passes uses them all up. */
  ghost predicate CanExhaust(w: World, result: JobResult, state: JobState, n: nat) {
    exists slots :: |slots| == n && Exhausts(w, result, state, slots)
  }

  lemma {:induction false} SlowDrive(w: World, result: JobResult, state: JobState, now: Time, n: nat)
    requires Reachable(w) && Holding(w, result, state, now) && Consistent(result)
    requires n > 0 && state.Rank() + n <= Goal(result) && Admissible(state, result.outcome)
    ensures CanExhaust(w, result, state, n)
    decreases n
  {
    if n == 1 {
      SlowEnd(w, result, state, now);
    } else {
      var slot := Slot([DoMove(RivalMove(result, state, now))], now, []);
      SlowPass(w, result, state, slot);
      SuccessorIsNext(state, result.outcome);
      SlowDrive(Interfere(w, slot.before), result, Successor(state), now, n - 1);
      ExhaustsAfter(w, result, state, slot, n - 1);
    }
  }

  lemma SlowEnd(w: World, result: JobResult, state: JobState, now: Time)
    requires Reachable(w) && Holding(w, result, state, now) && Consistent(result)
    requires state.Rank() < Goal(result) && Admissible(state, result.outcome)
    ensures CanExhaust(w, result, state, 1)
  {
    LastPass(w, result, state, now);
    ExhaustsLater(w, result, state, [Slot([], now, [])]);
  }

  lemma SuccessorIsNext(state: JobState, outcome: JobOutcome)
    requires 1 <= state.Rank() <= 7 && Admissible(state, outcome)
    ensures Successor(state).Rank() == state.Rank() + 1 && Admissible(Successor(state), outcome)
  {}

  lemma ExhaustsAfter(w: World, result: JobResult, state: JobState, slot: Slot, n: nat)
    requires Live(Interfere(w, slot.before), result, slot.now)
    requires var (w', progress) := Pass(w, result, state, slot);
      progress.GoOn? && CanExhaust(w', result, progress.state, n)
    ensures CanExhaust(w, result, state, n + 1)
  {
    var (w', progress) := Pass(w, result, state, slot);
    var rest :| |rest| == n && Exhausts(w', result, progress.state, rest);
    assert ([slot] + rest)[1..] == rest;
    ExhaustsLater(w, result, state, [slot] + rest);
  }

  ghost predicate Exhausts(w: World, result: JobResult, state: JobState, slots: seq<Slot>) {
    LiveThroughout(w, result, state, slots) && Drive(w, result, state, slots).1 == RetryLater
  }

  lemma HeldIsFollowed(w: World, result: JobResult, state: JobState, now: Time)
    requires Reachable(w) && Holding(w, result, state, now)
    ensures Following(w, result, state)
  {
    ReachableIsOk(w);
  }

  /** The exact budget: under a live lease, some interference makes the six passes run out if and
      only if the goal is six or more edges away and the contract admits the outcome from there.
      From InstallingApk on that is never the case, whatever happens in between. */
  lemma BudgetIsExact(w: World, result: JobResult, start: JobState, now: Time)
    requires Reachable(w) && Holding(w, result, start, now) && Consistent(result)
    ensures CanExhaust(w, result, start, PASSES) <==>
      start.Rank() + PASSES <= Goal(result) && Admissible(start, result.outcome)
    ensures start.Rank() >= 4 ==> forall slots :: |slots| == PASSES ==> !Exhausts(w, result, start, slots)
  {
    HeldIsFollowed(w, result, start, now);
    if start.Rank() + PASSES <= Goal(result) && Admissible(start, result.outcome) {
      SlowDrive(w, result, start, now, PASSES);
    } else {
      forall slots | |slots| == PASSES ensures !Exhausts(w, result, start, slots) {
        if LiveThroughout(w, result, start, slots) { DriveSuffices(w, result, start, slots); }
      }
    }
  }

  /** A lease that has expired but is not yet recovered makes every pass fail without moving. */
  lemma {:induction false} ExpiredLeaseExhausts(w: World, result: JobResult, state: JobState, slots: seq<Slot>)
    requires result.job in w.db.jobs && Holds(w.db.jobs[result.job], result)
    requires w.db.jobs[result.job].pending == Some(result.outcome)
    requires w.db.jobs[result.job].state == state && state.Rank() < Goal(result)
    requires Consistent(result) && Admissible(state, result.outcome) && !state.Queued?
    requires forall i :: 0 <= i < |slots| ==>
      slots[i].before == [] && slots[i].between == []
      && (w.db.jobs[result.job].expires.None? || w.db.jobs[result.job].expires.value <= slots[i].now)
    ensures Drive(w, result, state, slots) == (w, RetryLater)
    decreases |slots|
  {
    if slots != [] {
      GoalIsWhereItStops(state, result);
      assert Pass(w, result, state, slots[0]) == (w, GoOn(state));
      ExpiredLeaseExhausts(w, result, state, slots[1..]);
    }
  }

  // ----- Left alone -----

  /** Nobody interferes, and no clock reaches the lease's end. */
  predicate Quiet(slots: seq<Slot>, before: Time) {
    forall i :: 0 <= i < |slots| ==> slots[i].before == [] && slots[i].between == [] && slots[i].now < before
  }

  /** The transitions still to make. */
  function Left(state: JobState, result: JobResult): nat {
    (if state.Rank() <= 6 then 1 else 0)
    + (if state.Rank() <= 7 && result.artifacts then 1 else 0)
    + (if state.Rank() <= 8 && result.cleanup then 1 else 0)
  }

  lemma QuietPass(w: World, result: JobResult, state: JobState, slot: Slot)
    requires Reachable(w) && Holding(w, result, state, slot.now) && Consistent(result)
    requires state.Rank() < Goal(result) && Admissible(state, result.outcome) && slot.before == []
    ensures var (w', progress) := Pass(w, result, state, slot);
      && progress.GoOn? && Some(progress.state) == NextResultState(state, result)
      && Reachable(w') && result.job in w'.db.jobs && w'.db.jobs[result.job].state == progress.state
      && (progress.state.Terminal() || Holding(w', result, progress.state, slot.now))
      && (progress.state.Terminal() || w'.db.jobs[result.job].expires == w.db.jobs[result.job].expires)
  {
    RowIsOk(w, result.job);
    GoalIsWhereItStops(state, result);
    assert Interfere(w, []) == w;
    ReachableStep(w, DoMove(RequestFor(result, state, NextResultState(state, result).value, slot.now)));
  }

  /** Without interference, four passes take every admissible result exactly as far as its evidence
      goes: to its terminal state, to CleaningUp, or to CollectingArtifacts. */
  lemma {:induction false} QuietDriveFinishes(w: World, result: JobResult, state: JobState, slots: seq<Slot>)
    requires Reachable(w) && Holding(w, result, state, if slots == [] then 0 else slots[0].now) && Consistent(result)
    requires Admissible(state, result.outcome) && |slots| > Left(state, result)
    requires Quiet(slots, w.db.jobs[result.job].expires.value)
    ensures var (w', reply) := Drive(w, result, state, slots);
      && result.job in w'.db.jobs
      && (result.cleanup ==> reply == Confirmed && w'.db.jobs[result.job].state == TerminalState(result.outcome))
      && (!result.cleanup ==> reply == Accepted && w'.db.jobs[result.job].state.Rank() == Max(state.Rank(), Goal(result)))
    decreases |slots|
  {
    GoalIsWhereItStops(state, result);
    if state.Rank() < Goal(result) {
      QuietPass(w, result, state, slots[0]);
      var (w', progress) := Pass(w, result, state, slots[0]);
      if progress.state.Terminal() {
        assert slots[1..] != [];
      } else {
        QuietDriveFinishes(w', result, progress.state, slots[1..]);
      }
    }
  }
}
