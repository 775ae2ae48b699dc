/** The buffer of the work queue is the fair queue: pushes, pops and replacements of the protocol are
    operations of the specification in `Fairness`, so its bounds hold for dispatching. */
module QueueFairness {
  import opened Base
  import opened Store
  import opened QueueProtocol
  import opened QueueProgress
  import L = Lanes
  import Fair = Fairness
  import FairRuns

  type Queue = Fair.FairState<Pending>

  /** The fair queue and the buffer hold the same jobs with the same deliveries. */
  ghost predicate Tracks(q: Queue, sys: Sys) {
    && Fair.FairOk(q) && q.capacity == sys.capacity && q.jobIds == sys.buffer.Keys
    && forall e :: e in Fair.Held(q) ==> e.job in sys.buffer && sys.buffer[e.job] == e.payload
  }

  // ----- Sizes -----

  lemma JobsOfEntries(entries: set<L.Entry<Pending>>, jobs: set<JobId>)
    requires forall e, f :: e in entries && f in entries && e.job == f.job ==> e == f
    requires jobs == set e | e in entries :: e.job
    ensures |jobs| == |entries|
  {
    if entries != {} {
      var x :| x in entries;
      var fewer := entries - {x};
      assert jobs - {x.job} == set e | e in fewer :: e.job;
      JobsOfEntries(fewer, jobs - {x.job});
    } else {
      assert jobs == {};
    }
  }

  lemma LaneCountsJobs(l: L.LaneState<Pending>)
    requires L.LaneOk(l)
    ensures |L.Jobs(l)| == l.len
  {
    JobsOfEntries(L.Entries(l), L.Jobs(l));
  }

  lemma DisjointSizes(a: set<JobId>, b: set<JobId>)
    requires a !! b
    ensures |a + b| == |a| + |b|
  {}

  lemma IndexCounts(q: Queue)
    requires Fair.FairOk(q)
    ensures |q.jobIds| == q.len
  {
    assert Fair.Accounted(q, L.Interactive) && Fair.Accounted(q, L.Batch);
    LaneCountsJobs(q.interactive);
    LaneCountsJobs(q.batch);
    DisjointSizes(L.Jobs(q.interactive), L.Jobs(q.batch));
  }

  /** The buffer is full exactly when the queue is, and empty exactly when it is. */
  lemma SizesAgree(q: Queue, sys: Sys)
    requires Tracks(q, sys)
    ensures |sys.buffer| == q.len
  {
    IndexCounts(q);
    assert |sys.buffer.Keys| == |sys.buffer|;
  }

  // ----- Operations -----

  lemma HeldIsIndexed(q: Queue, e: L.Entry<Pending>)
    requires Fair.FairOk(q)
    ensures e in Fair.Held(q) ==> e.job in q.jobIds
  {
    assert Fair.Accounted(q, L.Interactive);
  }

  /** What the operations do to the index of jobs and to the capacity. */
  lemma PushIndex(q: Queue, e: L.Entry<Pending>)
    ensures Fair.Push(q, e).capacity == q.capacity
    ensures Fair.Push(q, e).jobIds == if Fair.PushRefusal(q, e).None? then q.jobIds + {e.job} else q.jobIds
  {}

  /** A push of the protocol is a push of the fair queue, with the same refusals. */
  lemma PushTracks(q: Queue, sys: Sys, e: L.Entry<Pending>)
    requires Tracks(q, sys)
    ensures Tracks(Fair.Push(q, e), Pushed(sys, e.job, e.payload))
    ensures Fair.PushRefusal(q, e) == Some(Fair.Full) <==> e.job !in sys.buffer && |sys.buffer| == sys.capacity
    ensures Fair.PushRefusal(q, e) == Some(Fair.Duplicate) <==> e.job in sys.buffer
  {
    SizesAgree(q, sys);
    Fair.PushKeepsOk(q, e);
    PushIndex(q, e);
    if Fair.PushRefusal(q, e).None? {
      forall f | f in Fair.Held(q) ensures f.job != e.job { HeldIsIndexed(q, f); }
    }
  }

  lemma PopIndex(q: Queue, now: Time)
    requires Fair.FairOk(q) && Fair.Ready(q)
    ensures Fair.Pop(q, now).0.capacity == q.capacity
    ensures Fair.Pop(q, now).1.Some? ==> Fair.Pop(q, now).0.jobIds == q.jobIds - {Fair.Pop(q, now).1.value.job}
  {
    Fair.QueueEmptiness(q);
    if Fair.Held(q) == {} {
      Fair.ScanFindsNothing(q.(forced := false), q.Cycle());
    } else {
      Fair.PopServes(q, now);
      Fair.PopFromKeepsOk(q, Fair.Choice(q, now));
    }
  }

  function Dropped(sys: Sys, job: JobId): Sys {
    sys.(buffer := sys.buffer - {job})
  }

  /** What the fair queue gives out is in the buffer, with that delivery, and leaves it. */
  lemma PopTracks(q: Queue, sys: Sys, now: Time)
    requires Tracks(q, sys) && Fair.Ready(q) && Fair.Pop(q, now).1.Some?
    ensures var e := Fair.Pop(q, now).1.value;
      && e.job in sys.buffer && sys.buffer[e.job] == e.payload
      && Tracks(Fair.Pop(q, now).0, Dropped(sys, e.job))
  {
    var e := Fair.Pop(q, now).1.value;
    Fair.PopKeepsOk(q, now);
    PopIndex(q, now);
    assert (sys.buffer - {e.job}).Keys == sys.buffer.Keys - {e.job};
    forall f | f in Fair.Held(Fair.Pop(q, now).0) ensures f.job in Dropped(sys, e.job).buffer {
      HeldIsIndexed(Fair.Pop(q, now).0, f);
    }
  }

  /** It gives out something as long as anything is buffered. */
  lemma PopIsTotal(q: Queue, sys: Sys, now: Time)
    requires Tracks(q, sys)
    ensures Fair.Ready(q) && (Fair.Pop(q, now).1.None? <==> sys.buffer == map[])
  {
    Fair.PopKeepsOk(q, now);
    Fair.QueueEmptiness(q);
    SizesAgree(q, sys);
  }

  /** A payload update exchanges one entry. */
  lemma TouchExchanges(q: Queue, job: JobId, payload: Pending) returns (e: L.Entry<Pending>)
    requires Fair.FairOk(q) && job in q.jobIds
    ensures e in Fair.Held(q) && e.job == job
    ensures forall f :: f in Fair.Held(Fair.Touch(q, job, payload)) <==>
      f == e.(payload := payload) || (f in Fair.Held(q) && f.job != job)
    ensures Fair.Touch(q, job, payload).jobIds == q.jobIds && Fair.Touch(q, job, payload).capacity == q.capacity
  {
    Fair.InLaneAgrees(q, L.Interactive, job);
    Fair.InLaneAgrees(q, L.Batch, job);
    assert Fair.Accounted(q, L.Interactive);
    var lane := if Fair.InLane(q, L.Interactive, job) then L.Interactive else L.Batch;
    e := TouchInExchanges(q, lane, job, payload);
    forall f | f in Fair.Held(q) && f.job == job ensures f == e { FairRuns.HeldJobsDiffer(q, e, f); }
  }

  lemma TouchInExchanges(q: Queue, lane: L.Lane, job: JobId, payload: Pending) returns (e: L.Entry<Pending>)
    requires Fair.FairOk(q) && Fair.InLane(q, lane, job)
    ensures e in Fair.Held(q) && e.job == job
    ensures forall f :: f in Fair.Held(Fair.TouchIn(q, lane, job, payload)) ==> f == e.(payload := payload) || f in Fair.Held(q)
    ensures forall f :: f in Fair.Held(q) && f != e ==> f in Fair.Held(Fair.TouchIn(q, lane, job, payload))
    ensures e.(payload := payload) in Fair.Held(Fair.TouchIn(q, lane, job, payload))
    ensures e.payload != payload ==> e !in Fair.Held(Fair.TouchIn(q, lane, job, payload))
  {
    e := LaneExchanges(q, lane, job, payload);
    HeldAfterExchange(q, Fair.TouchIn(q, lane, job, payload), lane, e, payload);
  }

  lemma LaneExchanges(q: Queue, lane: L.Lane, job: JobId, payload: Pending) returns (e: L.Entry<Pending>)
    requires Fair.FairOk(q) && Fair.InLane(q, lane, job)
    ensures e in L.Entries(q.Lane(lane)) && e !in L.Entries(q.Lane(Fair.Other(lane))) && e.job == job
    ensures var q' := Fair.TouchIn(q, lane, job, payload);
      && L.Entries(q'.Lane(lane)) == L.Entries(q.Lane(lane)) - {e} + {e.(payload := payload)}
      && q'.Lane(Fair.Other(lane)) == q.Lane(Fair.Other(lane))
  {
    assert Fair.Accounted(q, lane) && Fair.Accounted(q, Fair.Other(lane));
    var l, p := q.Lane(lane), Fair.HolderOf(q.Lane(lane), job).value;
    Fair.TouchFits(l, lane, p, job, payload);
    e := l.buckets[p][L.IndexOf(l.buckets[p], job)];
    assert e.lane == lane;
  }

  lemma HeldAfterExchange(q: Queue, q': Queue, lane: L.Lane, e: L.Entry<Pending>, payload: Pending)
    requires e in L.Entries(q.Lane(lane)) && e !in L.Entries(q.Lane(Fair.Other(lane)))
    requires L.Entries(q'.Lane(lane)) == L.Entries(q.Lane(lane)) - {e} + {e.(payload := payload)}
    requires q'.Lane(Fair.Other(lane)) == q.Lane(Fair.Other(lane))
    ensures Fair.Held(q') <= Fair.Held(q) + {e.(payload := payload)} && e in Fair.Held(q)
    ensures Fair.Held(q) - {e} <= Fair.Held(q') && e.(payload := payload) in Fair.Held(q')
    ensures e.payload != payload ==> e !in Fair.Held(q')
  {}

  function Exchanged(sys: Sys, job: JobId, payload: Pending): Sys {
    sys.(buffer := sys.buffer[job := payload])
  }

  lemma TouchTracks(q: Queue, sys: Sys, job: JobId, payload: Pending)
    requires Tracks(q, sys) && job in sys.buffer
    ensures Tracks(Fair.Touch(q, job, payload), Exchanged(sys, job, payload))
  {
    Fair.TouchKeepsOk(q, job, payload);
    var e := TouchExchanges(q, job, payload);
  }

  // ----- Moves -----

  /** What the scheduler knows of a buffered job besides its delivery, and the clock of a pop. */
  datatype Stamp = Stamp(project: ProjectId, lane: L.Lane, createdAt: Time, enqueuedAt: Time, now: Time)

  function EntryFor(job: JobId, pending: Pending, stamp: Stamp): L.Entry<Pending> {
    L.Entry(job, stamp.project, stamp.lane, stamp.createdAt, stamp.enqueuedAt, pending)
  }

  /** The queue operation of an effect, if it is one on the buffer. */
  function OpOfEffect(sys: Sys, effect: Effect, stamp: Stamp): Option<FairRuns.Op<Pending>> {
    match effect
    case Offer(job, pending) => if job in sys.buffer then None else Some(FairRuns.OpPush(EntryFor(job, pending, stamp)))
    case Requeue(job, pending) => Some(FairRuns.OpPush(EntryFor(job, pending, stamp)))
    case Replace(job, sequence) =>
      if job in sys.buffer then Some(FairRuns.OpTouch(job, sys.buffer[job].(sequence := sequence))) else None
    case _ => None
  }

  function OpOf(sys: Sys, move: Move, stamp: Stamp): Option<FairRuns.Op<Pending>> {
    match move
    case Pop(_, _) => Some(FairRuns.OpPop(stamp.now))
    case Perform(task, _) => if HasHead(sys, task) then OpOfEffect(sys, sys.tasks[task][0], stamp) else None
    case _ => None
  }

  ghost function Operated(q: Queue, op: Option<FairRuns.Op<Pending>>): Queue
    requires Fair.FairOk(q)
  {
    if op.Some? then FairRuns.Apply(q, op.value) else q
  }

  /** The dispatcher takes what its queue gives out, and it does not stop. */
  ghost predicate FairMove(q: Queue, move: Move, stamp: Stamp) {
    && !move.Crash?
    && (move.Pop? ==> Fair.Ready(q) && Fair.Pop(q, stamp.now).1.Some? && Fair.Pop(q, stamp.now).1.value.job == move.job)
  }

  lemma SameBufferTracks(q: Queue, sys: Sys, sys': Sys)
    requires Tracks(q, sys) && sys'.buffer == sys.buffer && sys'.capacity == sys.capacity
    ensures Tracks(q, sys')
  {}

  lemma PushedTracks(q: Queue, sys: Sys, e: L.Entry<Pending>, sys': Sys)
    requires Tracks(q, sys) && sys'.capacity == sys.capacity && sys'.buffer == Pushed(sys, e.job, e.payload).buffer
    ensures Tracks(FairRuns.Apply(q, FairRuns.OpPush(e)), sys')
    ensures e.job in sys.buffer ==> FairRuns.Apply(q, FairRuns.OpPush(e)) == q
  {
    PushTracks(q, sys, e);
    SameBufferTracks(Fair.Push(q, e), Pushed(sys, e.job, e.payload), sys');
  }

  lemma ExchangedTracks(q: Queue, sys: Sys, job: JobId, payload: Pending, sys': Sys)
    requires Tracks(q, sys) && job in sys.buffer
    requires sys'.capacity == sys.capacity && sys'.buffer == Exchanged(sys, job, payload).buffer
    ensures Tracks(FairRuns.Apply(q, FairRuns.OpTouch(job, payload)), sys')
  {
    TouchTracks(q, sys, job, payload);
    SameBufferTracks(Fair.Touch(q, job, payload), Exchanged(sys, job, payload), sys');
  }

  lemma OfferTracks(q: Queue, sys: Sys, task: nat, job: JobId, pending: Pending, rest: Plan, now: Time, stamp: Stamp)
    requires Tracks(q, sys)
    ensures Tracks(Operated(q, OpOfEffect(sys, Offer(job, pending), stamp)), Execute(sys, task, Offer(job, pending), rest, now))
  {
    var sys' := OfferEffect(sys, task, job, pending);
    if job in sys.buffer {
      SameBufferTracks(q, sys, sys');
    } else {
      PushedTracks(q, sys, EntryFor(job, pending, stamp), sys');
    }
  }

  lemma RequeueTracks(q: Queue, sys: Sys, task: nat, job: JobId, pending: Pending, rest: Plan, now: Time, stamp: Stamp)
    requires Tracks(q, sys)
    ensures Tracks(Operated(q, OpOfEffect(sys, Requeue(job, pending), stamp)), Execute(sys, task, Requeue(job, pending), rest, now))
  {
    PushedTracks(q, sys, EntryFor(job, pending, stamp), WithPlan(Pushed(sys, job, pending), task, []));
  }

  lemma ReplaceTracks(q: Queue, sys: Sys, task: nat, job: JobId, sequence: nat, rest: Plan, now: Time, stamp: Stamp)
    requires Tracks(q, sys)
    ensures Tracks(Operated(q, OpOfEffect(sys, Replace(job, sequence), stamp)), Execute(sys, task, Replace(job, sequence), rest, now))
  {
    if job in sys.buffer {
      var payload := sys.buffer[job].(sequence := sequence);
      ExchangedTracks(q, sys, job, payload, WithPlan(Exchanged(sys, job, payload), task, rest));
    } else {
      SameBufferTracks(q, sys, WithPlan(sys, task, rest));
    }
  }

  lemma EffectTracks(q: Queue, sys: Sys, task: nat, effect: Effect, rest: Plan, now: Time, stamp: Stamp)
    requires Tracks(q, sys)
    ensures Tracks(Operated(q, OpOfEffect(sys, effect, stamp)), Execute(sys, task, effect, rest, now))
  {
    match effect
    case Offer(job, pending) => OfferTracks(q, sys, task, job, pending, rest, now, stamp);
    case Requeue(job, pending) => RequeueTracks(q, sys, task, job, pending, rest, now, stamp);
    case Replace(job, sequence) => ReplaceTracks(q, sys, task, job, sequence, rest, now, stamp);
    case _ => QuietEffectTracks(q, sys, task, effect, rest, now);
  }

  lemma QuietEffectTracks(q: Queue, sys: Sys, task: nat, effect: Effect, rest: Plan, now: Time)
    requires Tracks(q, sys) && !TouchesBuffer(effect)
    ensures Tracks(q, Execute(sys, task, effect, rest, now))
  {
    EffectKeepsLimits(sys, task, effect, rest, now);
    SameBufferTracks(q, sys, Execute(sys, task, effect, rest, now));
  }

  /** Every move of the protocol is an operation of the fair queue, or none. */
  lemma MoveTracks(q: Queue, sys: Sys, move: Move, stamp: Stamp)
    requires Tracks(q, sys) && CanMove(sys, move) && FairMove(q, move, stamp)
    ensures Tracks(Operated(q, OpOf(sys, move, stamp)), Next(sys, move))
  {
    if move.Perform? {
      EffectTracks(q, sys, move.task, sys.tasks[move.task][0], sys.tasks[move.task][1..], move.now, stamp);
    } else {
      OtherMoveBuffer(sys, move);
      if move.Pop? {
        PopTracks(q, sys, stamp.now);
        SameBufferTracks(Operated(q, OpOf(sys, move, stamp)), Dropped(sys, move.job), Next(sys, move));
      } else {
        SameBufferTracks(q, sys, Next(sys, move));
      }
    }
  }

  /** A new fair queue is what an empty buffer is, at the start and after a stop. */
  lemma EmptyTracks(config: Fair.Config, sys: Sys)
    requires Fair.New<Pending>(config).Ok? && config.capacity == sys.capacity && sys.buffer == map[]
    ensures Tracks(Fair.New<Pending>(config).value, sys)
  {
    Fair.NewIsOk<Pending>(config);
  }

  // ----- Dispatching over long stretches -----

  /** Any moves but a stop, in which the dispatcher takes what the fair queue gives out. */
  ghost predicate Stretch(q: Queue, sys: Sys, moves: seq<Move>, stamps: seq<Stamp>)
    requires Fair.FairOk(q)
    decreases |moves|
  {
    && |stamps| == |moves|
    && (moves != [] ==>
          && CanMove(sys, moves[0]) && FairMove(q, moves[0], stamps[0])
          && Stretch(Operated(q, OpOf(sys, moves[0], stamps[0])), Next(sys, moves[0]), moves[1..], stamps[1..]))
  }

  ghost function OpsAlong(sys: Sys, moves: seq<Move>, stamps: seq<Stamp>): seq<FairRuns.Op<Pending>>
    decreases |moves|
  {
    if moves == [] || |stamps| != |moves| || !CanMove(sys, moves[0]) then []
    else
      var rest := OpsAlong(Next(sys, moves[0]), moves[1..], stamps[1..]);
      if OpOf(sys, moves[0], stamps[0]).Some? then [OpOf(sys, moves[0], stamps[0]).value] + rest else rest
  }

  ghost function SysAfter(sys: Sys, moves: seq<Move>): Sys
    decreases |moves|
  {
    if moves == [] || !CanMove(sys, moves[0]) then sys else SysAfter(Next(sys, moves[0]), moves[1..])
  }

  /** Entries that the dispatcher takes out of the buffer. */
  function Dispatches(moves: seq<Move>): nat {
    if moves == [] then 0 else (if moves[0].Pop? then 1 else 0) + Dispatches(moves[1..])
  }

  lemma OneOpAlong(sys: Sys, moves: seq<Move>, stamps: seq<Stamp>, q: Queue)
    requires moves != [] && Fair.FairOk(q) && Stretch(q, sys, moves, stamps)
    ensures var op, rest := OpOf(sys, moves[0], stamps[0]), OpsAlong(Next(sys, moves[0]), moves[1..], stamps[1..]);
      && FairRuns.Final(q, OpsAlong(sys, moves, stamps)) == FairRuns.Final(Operated(q, op), rest)
      && FairRuns.Pops(OpsAlong(sys, moves, stamps)) == FairRuns.Pops(rest) + if moves[0].Pop? then 1 else 0
  {
    var op, rest := OpOf(sys, moves[0], stamps[0]), OpsAlong(Next(sys, moves[0]), moves[1..], stamps[1..]);
    if op.Some? { assert ([op.value] + rest)[1..] == rest; }
  }

  /** Along a stretch the buffer stays the fair queue after the same operations, and each dispatch is
      one of its pops. */
  lemma {:induction false} StretchTracks(q: Queue, sys: Sys, moves: seq<Move>, stamps: seq<Stamp>)
    requires Tracks(q, sys) && Stretch(q, sys, moves, stamps)
    ensures Tracks(FairRuns.Final(q, OpsAlong(sys, moves, stamps)), SysAfter(sys, moves))
    ensures FairRuns.Pops(OpsAlong(sys, moves, stamps)) == Dispatches(moves)
    decreases |moves|
  {
    if moves != [] {
      MoveTracks(q, sys, moves[0], stamps[0]);
      OneOpAlong(sys, moves, stamps, q);
      StretchTracks(Operated(q, OpOf(sys, moves[0], stamps[0])), Next(sys, moves[0]), moves[1..], stamps[1..]);
    }
  }

  /** Dispatching is fair: however deliveries, transactions and handlers interleave, a project that
      keeps jobs in a lane of the buffer waits no more dispatches than its place in the ring allows. */
  lemma DispatchIsFair(q: Queue, sys: Sys, moves: seq<Move>, stamps: seq<Stamp>, lane: L.Lane, p: ProjectId)
    requires Tracks(q, sys) && Stretch(q, sys, moves, stamps)
    requires FairRuns.Unserved(q, OpsAlong(sys, moves, stamps), lane, p)
    ensures Dispatches(moves) <= L.Place(q.Lane(lane).ring, p) * (FairRuns.Bound(q, lane) + 1) + FairRuns.Bound(q, lane)
  {
    StretchTracks(q, sys, moves, stamps);
    FairRuns.NobodyStarves(q, OpsAlong(sys, moves, stamps), lane, p);
  }

  /** And a lane that has jobs whenever one is dispatched is passed over at most that often in a row. */
  lemma LanesAreDispatched(q: Queue, sys: Sys, moves: seq<Move>, stamps: seq<Stamp>, lane: L.Lane)
    requires Tracks(q, sys) && Stretch(q, sys, moves, stamps)
    requires FairRuns.Passed(q, OpsAlong(sys, moves, stamps), lane)
    ensures Dispatches(moves) <= FairRuns.Bound(q, lane)
  {
    StretchTracks(q, sys, moves, stamps);
    FairRuns.LanesWaitBoundedly(q, OpsAlong(sys, moves, stamps), lane);
  }
}
