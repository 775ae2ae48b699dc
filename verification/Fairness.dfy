/** The bounded weighted fair queue: what push, pop and remove do, and how long anyone can wait. */
module Fairness {
  import opened Base
  import opened Lanes

  datatype FairState<T> = FairState(
    capacity: nat,
    aging: int,
    interactiveWeight: nat,
    batchWeight: nat,
    cursor: nat,
    interactive: LaneState<T>,
    batch: LaneState<T>,
    jobIds: set<JobId>,
    len: nat,
    forced: bool)
  {
    function Lane(lane: Lane): LaneState<T> {
      if lane.Interactive? then interactive else batch
    }

    function Cycle(): nat {
      interactiveWeight + batchWeight
    }

    /** The cyclic schedule: all interactive slots, then all batch slots. */
    function Slot(): Lane {
      if cursor < interactiveWeight then Interactive else Batch
    }

    function With(lane: Lane, l: LaneState<T>): FairState<T> {
      if lane.Interactive? then this.(interactive := l) else this.(batch := l)
    }
  }

  function Other(lane: Lane): Lane {
    if lane.Interactive? then Batch else Interactive
  }

  // ----- Invariant -----

  ghost function Held<T>(q: FairState<T>): set<Entry<T>> {
    Entries(q.interactive) + Entries(q.batch)
  }

  ghost predicate Fits<T>(l: LaneState<T>, lane: Lane) {
    LaneOk(l) && forall e :: e in Entries(l) ==> e.lane == lane
  }

  /** One lane is in order, and the job index and the count are those of both lanes together. */
  ghost predicate Accounted<T>(q: FairState<T>, lane: Lane) {
    && Fits(q.Lane(lane), lane)
    && q.jobIds == Jobs(q.Lane(lane)) + Jobs(q.Lane(Other(lane)))
    && Jobs(q.Lane(lane)) !! Jobs(q.Lane(Other(lane)))
    && q.len == q.Lane(lane).len + q.Lane(Other(lane)).len
  }

  ghost predicate FairOk<T>(q: FairState<T>) {
    && q.interactiveWeight > 0 && q.batchWeight > 0 && q.cursor < q.Cycle()
    && q.len <= q.capacity
    && forall lane :: Accounted(q, lane)
  }

  /** Replacing one lane keeps the invariant when the job index and the count follow. */
  lemma RelaneKeepsOk<T>(q: FairState<T>, lane: Lane, l: LaneState<T>, q': FairState<T>)
    requires FairOk(q) && Fits(l, lane)
    requires q' == q.With(lane, l).(jobIds := q'.jobIds, len := q'.len)
    requires q'.jobIds == Jobs(l) + Jobs(q.Lane(Other(lane))) && Jobs(l) !! Jobs(q.Lane(Other(lane)))
    requires q'.len == l.len + q.Lane(Other(lane)).len <= q.capacity
    ensures FairOk(q')
  {
    assert Accounted(q, Other(lane));
    forall each ensures Accounted(q', each) {
      assert each == lane || each == Other(lane);
    }
  }

  lemma HeldAfterAdding<T>(q: FairState<T>, q': FairState<T>, lane: Lane, x: Entry<T>)
    requires q'.Lane(Other(lane)) == q.Lane(Other(lane)) && Entries(q'.Lane(lane)) == Entries(q.Lane(lane)) + {x}
    ensures Held(q') == Held(q) + {x}
  {}

  lemma HeldAfterTaking<T>(q: FairState<T>, q': FairState<T>, lane: Lane, x: Entry<T>)
    requires q'.Lane(Other(lane)) == q.Lane(Other(lane)) && Entries(q'.Lane(lane)) == Entries(q.Lane(lane)) - {x}
    requires x in Entries(q.Lane(lane)) && x !in Entries(q.Lane(Other(lane)))
    ensures Held(q') == Held(q) - {x} && x in Held(q)
  {}

  /** Taking entry `e` out of one lane. */
  lemma TakeKeepsOk<T>(q: FairState<T>, lane: Lane, l: LaneState<T>, e: Entry<T>, q': FairState<T>)
    requires FairOk(q) && Fits(l, lane) && l.len == q.Lane(lane).len - 1
    requires e in Entries(q.Lane(lane)) && Entries(l) == Entries(q.Lane(lane)) - {e}
    requires e.job in Jobs(q.Lane(lane)) && Jobs(l) == Jobs(q.Lane(lane)) - {e.job}
    requires q.len > 0 && q' == q.With(lane, l).(jobIds := q.jobIds - {e.job}, len := q.len - 1)
    ensures FairOk(q') && Held(q') == Held(q) - {e} && e in Held(q)
  {
    assert Accounted(q, lane) && Accounted(q, Other(lane));
    RelaneKeepsOk(q, lane, l, q');
    assert e.lane == lane;
    HeldAfterTaking(q, q', lane, e);
  }

  /** The schedule position and the override flag are free to move. */
  lemma TurnKeepsOk<T>(q: FairState<T>, cursor: nat, forced: bool)
    requires FairOk(q) && cursor < q.Cycle()
    ensures FairOk(q.(cursor := cursor, forced := forced)) && Held(q.(cursor := cursor, forced := forced)) == Held(q)
  {
    forall lane ensures Accounted(q.(cursor := cursor, forced := forced), lane) { assert Accounted(q, lane); }
  }

  // ----- Construction -----

  datatype Config = Config(capacity: nat, interactiveWeight: nat, batchWeight: nat, aging: int)

  datatype ConfigError = EmptyCapacity | EmptyWeight | ExcessiveWeight | EmptyBatchAging

  function New<T>(config: Config): Result<FairState<T>, ConfigError> {
    if config.capacity == 0 then Err(EmptyCapacity)
    else if config.interactiveWeight == 0 || config.batchWeight == 0 then Err(EmptyWeight)
    else if config.interactiveWeight + config.batchWeight > 1024 then Err(ExcessiveWeight)
    else if config.aging <= 0 then Err(EmptyBatchAging)
    else Ok(FairState(config.capacity, config.aging, config.interactiveWeight, config.batchWeight, 0,
                      EmptyLane(), EmptyLane(), {}, 0, false))
  }

  lemma NewIsOk<T>(config: Config)
    requires New<T>(config).Ok?
    ensures FairOk(New<T>(config).value) && Held(New<T>(config).value) == {}
  {
    EmptyLaneIsOk<T>();
  }

  // ----- Push -----

  datatype PushError = Full | Duplicate

  function PushRefusal<T>(q: FairState<T>, entry: Entry<T>): Option<PushError> {
    if entry.job in q.jobIds then Some(Duplicate)
    else if q.len == q.capacity then Some(Full)
    else None
  }

  function Push<T>(q: FairState<T>, entry: Entry<T>): FairState<T> {
    if PushRefusal(q, entry).Some? then q
    else
      q.With(entry.lane, LanePush(q.Lane(entry.lane), entry)).(jobIds := q.jobIds + {entry.job}, len := q.len + 1)
  }

  lemma PushFits<T>(l: LaneState<T>, entry: Entry<T>)
    requires Fits(l, entry.lane) && entry.job !in Jobs(l)
    ensures Fits(LanePush(l, entry), entry.lane) && Jobs(LanePush(l, entry)) == Jobs(l) + {entry.job}
    ensures Entries(LanePush(l, entry)) == Entries(l) + {entry}
  {
    PushOk(l, entry);
  }

  lemma AcceptKeepsOk<T>(q: FairState<T>, entry: Entry<T>, l: LaneState<T>, q': FairState<T>)
    requires FairOk(q) && entry.job !in q.jobIds && q.len < q.capacity
    requires Fits(l, entry.lane) && l.len == q.Lane(entry.lane).len + 1
    requires Jobs(l) == Jobs(q.Lane(entry.lane)) + {entry.job} && Entries(l) == Entries(q.Lane(entry.lane)) + {entry}
    requires q' == q.With(entry.lane, l).(jobIds := q.jobIds + {entry.job}, len := q.len + 1)
    ensures FairOk(q') && Held(q') == Held(q) + {entry}
  {
    assert Accounted(q, entry.lane);
    RelaneKeepsOk(q, entry.lane, l, q');
    HeldAfterAdding(q, q', entry.lane, entry);
  }

  lemma PushKeepsOk<T>(q: FairState<T>, entry: Entry<T>)
    requires FairOk(q)
    ensures FairOk(Push(q, entry))
    ensures PushRefusal(q, entry).None? ==> Held(Push(q, entry)) == Held(q) + {entry} && entry.job !in q.jobIds
    ensures PushRefusal(q, entry).Some? ==> Push(q, entry) == q
  {
    if PushRefusal(q, entry).None? {
      assert Accounted(q, entry.lane);
      PushFits(q.Lane(entry.lane), entry);
      AcceptKeepsOk(q, entry, LanePush(q.Lane(entry.lane), entry), Push(q, entry));
    }
  }

  // ----- Pop -----

  ghost predicate Ready<T>(q: FairState<T>) {
    && q.interactiveWeight > 0 && q.batchWeight > 0
    && Poppable(q.interactive) && Poppable(q.batch)
    && (q.interactive.ring != [] || q.batch.ring != [] ==> q.len > 0)
  }

  ghost function PopFrom<T>(q: FairState<T>, lane: Lane): (FairState<T>, Option<Entry<T>>)
    requires Ready(q)
  {
    var (l, popped) := LanePop(q.Lane(lane));
    match popped
    case None => (q, None)
    case Some(e) => (q.With(lane, l).(jobIds := q.jobIds - {e.job}, len := q.len - 1), popped)
  }

  /** Some batch entry has waited in the buffer for the aging period. */
  ghost predicate Aged<T>(q: FairState<T>, now: Time) {
    exists e :: e in Entries(q.batch) && now - e.enqueuedAt >= q.aging
  }

  function Next(cursor: nat, cycle: nat): nat {
    if cursor + 1 < cycle then cursor + 1 else 0
  }

  lemma NextWraps(cursor: nat, cycle: nat)
    requires cursor < cycle
    ensures (cursor + 1) % cycle == Next(cursor, cycle)
  {}

  ghost function Advanced<T>(q: FairState<T>): FairState<T>
    requires Ready(q)
  {
    q.(cursor := (q.cursor + 1) % q.Cycle())
  }

  /** At most `n` more slots of the schedule are tried. */
  ghost function Scan<T>(q: FairState<T>, n: nat): (FairState<T>, Option<Entry<T>>)
    requires Ready(q)
    decreases n
  {
    if n == 0 then (q, None)
    else if q.Lane(q.Slot()).ring != [] then PopFrom(Advanced(q), q.Slot())
    else Scan(Advanced(q), n - 1)
  }

  ghost predicate Overrides<T>(q: FairState<T>, now: Time) {
    Aged(q, now) && !q.forced
  }

  ghost function Pop<T>(q: FairState<T>, now: Time): (FairState<T>, Option<Entry<T>>)
    requires Ready(q)
  {
    if Overrides(q, now) then PopFrom(q.(forced := true), Batch)
    else Scan(q.(forced := false), q.Cycle())
  }

  lemma OkIsReady<T>(q: FairState<T>)
    requires FairOk(q)
    ensures Ready(q)
  {
    assert Accounted(q, Interactive) && Accounted(q, Batch);
    PopIsSafe(q.interactive);
    PopIsSafe(q.batch);
    EmptinessAgrees(q.interactive);
    EmptinessAgrees(q.batch);
  }

  lemma PopFits<T>(l: LaneState<T>, lane: Lane)
    requires Fits(l, lane) && Poppable(l) && l.ring != []
    ensures Fits(LanePop(l).0, lane) && LanePop(l).0.len == l.len - 1 && LanePop(l).1.Some?
    ensures var e := LanePop(l).1.value;
      && e in Entries(l) && Entries(LanePop(l).0) == Entries(l) - {e}
      && e.job in Jobs(l) && Jobs(LanePop(l).0) == Jobs(l) - {e.job}
      && e.lane == lane && e.project == l.ring[0]
  {
    PopOk(l);
  }

  /** Taking the next entry of a lane. */
  lemma PopFromKeepsOk<T>(q: FairState<T>, lane: Lane)
    requires FairOk(q) && Ready(q) && q.Lane(lane).ring != []
    ensures PopFrom(q, lane).1.Some? && FairOk(PopFrom(q, lane).0)
    ensures var e := PopFrom(q, lane).1.value;
      && e in Held(q) && Held(PopFrom(q, lane).0) == Held(q) - {e}
      && e.lane == lane && e.project == q.Lane(lane).ring[0]
  {
    assert Accounted(q, lane);
    PopFits(q.Lane(lane), lane);
    TakeKeepsOk(q, lane, LanePop(q.Lane(lane)).0, PopFrom(q, lane).1.value, PopFrom(q, lane).0);
  }

  /** Where the scan stops: at the slot under the cursor if its lane has work, and otherwise at the
      first slot of the other lane. */
  lemma {:induction false} ScanSkips<T>(q: FairState<T>, n: nat)
    requires Ready(q) && q.cursor < q.Cycle()
    requires q.Lane(q.Slot()).ring == []
    requires n > (if q.Slot().Interactive? then q.interactiveWeight - q.cursor else q.Cycle() - q.cursor)
    requires q.Lane(Other(q.Slot())).ring != []
    ensures var next := if q.Slot().Interactive? then q.interactiveWeight else 0;
      Scan(q, n) == PopFrom(Advanced(q.(cursor := next)), Other(q.Slot()))
    decreases n
  {
    var q1 := Advanced(q);
    NextWraps(q.cursor, q.Cycle());
    if q1.Slot() == q.Slot() && q1.cursor != 0 {
      ScanSkips(q1, n - 1);
      var next := if q.Slot().Interactive? then q.interactiveWeight else 0;
      assert q1.(cursor := next) == q.(cursor := next);
    } else {
      assert q1 == q.(cursor := if q.Slot().Interactive? then q.interactiveWeight else 0);
    }
  }

  lemma {:induction false} ScanFindsNothing<T>(q: FairState<T>, n: nat)
    requires Ready(q) && q.cursor < q.Cycle() && q.interactive.ring == [] && q.batch.ring == []
    ensures Scan(q, n).1.None? && Scan(q, n).0 == q.(cursor := Scan(q, n).0.cursor)
    ensures Scan(q, n).0.cursor < q.Cycle()
    decreases n
  {
    if n > 0 { ScanFindsNothing(Advanced(q), n - 1); }
  }

  /** The lane a pop serves. */
  ghost function Choice<T>(q: FairState<T>, now: Time): Lane {
    if Overrides(q, now) then Batch
    else if q.Lane(q.Slot()).ring != [] then q.Slot()
    else Other(q.Slot())
  }

  /** The schedule position and the override flag as a pop leaves them before taking the entry. */
  ghost function Turned<T>(q: FairState<T>, now: Time): FairState<T>
    requires Ready(q)
  {
    if Overrides(q, now) then q.(forced := true)
    else if q.Lane(q.Slot()).ring != [] then Advanced(q.(forced := false))
    else Advanced(q.(forced := false, cursor := if q.Slot().Interactive? then q.interactiveWeight else 0))
  }

  /** A pop of a non-empty queue turns the schedule and takes the next entry of the chosen lane. */
  lemma PopServes<T>(q: FairState<T>, now: Time)
    requires Ready(q) && q.cursor < q.Cycle() && (q.interactive.ring != [] || q.batch.ring != [])
    requires Overrides(q, now) ==> q.batch.ring != []
    ensures q.Lane(Choice(q, now)).ring != []
    ensures Pop(q, now) == PopFrom(Turned(q, now), Choice(q, now))
    ensures Turned(q, now).cursor < q.Cycle()
    ensures Turned(q, now) == q.(cursor := Turned(q, now).cursor, forced := Turned(q, now).forced)
  {
    if !Overrides(q, now) && q.Lane(q.Slot()).ring == [] {
      ScanSkips(q.(forced := false), q.Cycle());
    }
  }

  /** Emptiness of the whole queue, seen from its parts. */
  lemma QueueEmptiness<T>(q: FairState<T>)
    requires FairOk(q)
    ensures Ready(q)
    ensures Held(q) == {} <==> q.interactive.ring == [] && q.batch.ring == []
    ensures q.len == 0 <==> Held(q) == {}
    ensures forall now :: Overrides(q, now) ==> q.batch.ring != []
  {
    OkIsReady(q);
    assert Accounted(q, Interactive) && Accounted(q, Batch);
    EmptinessAgrees(q.interactive);
    EmptinessAgrees(q.batch);
  }

  lemma PopKeepsOk<T>(q: FairState<T>, now: Time)
    requires FairOk(q)
    ensures Ready(q) && FairOk(Pop(q, now).0)
    ensures Pop(q, now).1.None? <==> Held(q) == {}
    ensures Pop(q, now).1.None? ==> Held(Pop(q, now).0) == {}
    ensures Pop(q, now).1.Some? ==> Pop(q, now).1.value in Held(q)
    ensures Pop(q, now).1.Some? ==> Held(Pop(q, now).0) == Held(q) - {Pop(q, now).1.value}
  {
    QueueEmptiness(q);
    if Held(q) == {} {
      ScanFindsNothing(q.(forced := false), q.Cycle());
      TurnKeepsOk(q, Pop(q, now).0.cursor, false);
    } else {
      PopServes(q, now);
      TurnKeepsOk(q, Turned(q, now).cursor, Turned(q, now).forced);
      PopFromKeepsOk(Turned(q, now), Choice(q, now));
    }
  }

  // ----- What a pop does, seen from the entries -----

  /** Some held batch entry has waited for the aging period. */
  ghost predicate HoldsAged<T>(q: FairState<T>, now: Time) {
    exists e :: e in Held(q) && e.lane == Batch && now - e.enqueuedAt >= q.aging
  }

  ghost predicate HoldsIn<T>(q: FairState<T>, lane: Lane) {
    exists e :: e in Held(q) && e.lane == lane
  }

  lemma HeldByLane<T>(q: FairState<T>, e: Entry<T>)
    requires FairOk(q)
    ensures e in Entries(q.interactive) <==> e in Held(q) && e.lane == Interactive
    ensures e in Entries(q.batch) <==> e in Held(q) && e.lane == Batch
  {
    assert Accounted(q, Interactive) && Accounted(q, Batch);
  }

  lemma LaneIsBusy<T>(q: FairState<T>, lane: Lane)
    requires FairOk(q)
    ensures HoldsIn(q, lane) <==> q.Lane(lane).ring != []
  {
    assert Accounted(q, lane);
    EmptinessAgrees(q.Lane(lane));
    forall e ensures e in Entries(q.Lane(lane)) <==> e in Held(q) && e.lane == lane { HeldByLane(q, e); }
  }

  lemma AgedIsHeld<T>(q: FairState<T>, now: Time)
    requires FairOk(q)
    ensures Aged(q, now) <==> HoldsAged(q, now)
  {
    forall e ensures e in Entries(q.batch) <==> e in Held(q) && e.lane == Batch { HeldByLane(q, e); }
  }

  /** What `PopServes` leaves after the entry is taken. */
  lemma PopLeaves<T>(q: FairState<T>, now: Time)
    requires FairOk(q) && Held(q) != {}
    ensures Ready(q) && Pop(q, now).1.Some? && Pop(q, now).1.value.lane == Choice(q, now)
    ensures Pop(q, now).0.cursor == Turned(q, now).cursor && Pop(q, now).0.forced == Turned(q, now).forced
  {
    QueueEmptiness(q);
    PopServes(q, now);
    TurnKeepsOk(q, Turned(q, now).cursor, Turned(q, now).forced);
    PopFromKeepsOk(Turned(q, now), Choice(q, now));
  }

  /** The aging override: when a batch entry has waited for the aging period and the last pop was not
      an override, a batch entry is popped, whatever slot the schedule is at, and the schedule stays. */
  lemma AgedBatchJumps<T>(q: FairState<T>, now: Time)
    requires FairOk(q) && HoldsAged(q, now) && !q.forced
    ensures Ready(q) && Pop(q, now).1.Some? && Pop(q, now).1.value.lane == Batch
    ensures Pop(q, now).0.cursor == q.cursor && Pop(q, now).0.forced
  {
    AgedIsHeld(q, now);
    PopLeaves(q, now);
  }

  /** Otherwise the schedule decides: the lane of the slot at the cursor is served if it holds
      anything, and then the cursor moves on by one; if not, the other lane is served. */
  lemma ScheduleDecides<T>(q: FairState<T>, now: Time)
    requires FairOk(q) && Held(q) != {} && (q.forced || !HoldsAged(q, now))
    ensures Ready(q) && Pop(q, now).1.Some? && !Pop(q, now).0.forced
    ensures var slot := if q.cursor < q.interactiveWeight then Interactive else Batch;
      if HoldsIn(q, slot) then
        Pop(q, now).1.value.lane == slot && Pop(q, now).0.cursor == Next(q.cursor, q.interactiveWeight + q.batchWeight)
      else Pop(q, now).1.value.lane == Other(slot)
  {
    AgedIsHeld(q, now);
    PopLeaves(q, now);
    LaneIsBusy(q, q.Slot());
    NextWraps(q.cursor, q.Cycle());
  }

  // ----- Remove and payload updates -----

  ghost function HolderOf<T>(l: LaneState<T>, job: JobId): (holder: Option<ProjectId>)
    ensures holder.Some? ==> InBucket(l, holder.value, job)
    ensures holder.None? ==> forall p :: !InBucket(l, p, job)
  {
    if exists p :: InBucket(l, p, job) then
      var p :| InBucket(l, p, job);
      Some(p)
    else None
  }

  /** A job of a lane is found in a bucket, and only jobs of the lane are. */
  lemma HolderAgrees<T>(l: LaneState<T>, job: JobId)
    requires LaneOk(l)
    ensures HolderOf(l, job).Some? <==> job in Jobs(l)
    ensures HolderOf(l, job).Some? ==> l.len > 0
    ensures forall p :: InBucket(l, p, job) ==> HolderOf(l, job) == Some(p)
  {
    EmptinessAgrees(l);
    forall p | InBucket(l, p, job) ensures job in Jobs(l) && HolderOf(l, job) == Some(p) {
      var q := HolderOf(l, job).value;
      var e, f := l.buckets[p][IndexOf(l.buckets[p], job)], l.buckets[q][IndexOf(l.buckets[q], job)];
      Enters(l, p, e);
      Enters(l, q, f);
    }
    if job in Jobs(l) {
      var e :| e in Entries(l) && e.job == job;
      FiledIn(l, e);
      assert InBucket(l, e.project, job);
    }
  }

  ghost predicate InLane<T>(q: FairState<T>, lane: Lane, job: JobId) {
    HolderOf(q.Lane(lane), job).Some? && q.Lane(lane).len > 0 && q.len > 0
  }

  ghost function RemoveFrom<T>(q: FairState<T>, lane: Lane, job: JobId): (FairState<T>, Option<Entry<T>>)
    requires InLane(q, lane, job)
  {
    var (l, removed) := Removed(q.Lane(lane), HolderOf(q.Lane(lane), job).value, job);
    (q.With(lane, l).(jobIds := q.jobIds - {job}, len := q.len - 1), removed)
  }

  ghost function Remove<T>(q: FairState<T>, job: JobId): (FairState<T>, Option<Entry<T>>) {
    if InLane(q, Interactive, job) then RemoveFrom(q, Interactive, job)
    else if InLane(q, Batch, job) then RemoveFrom(q, Batch, job)
    else (q, None)
  }

  ghost function TouchIn<T>(q: FairState<T>, lane: Lane, job: JobId, payload: T): FairState<T>
    requires InLane(q, lane, job)
  {
    q.With(lane, Touched(q.Lane(lane), HolderOf(q.Lane(lane), job).value, job, payload))
  }

  ghost function Touch<T>(q: FairState<T>, job: JobId, payload: T): FairState<T> {
    if InLane(q, Interactive, job) then TouchIn(q, Interactive, job, payload)
    else if InLane(q, Batch, job) then TouchIn(q, Batch, job, payload)
    else q
  }

  lemma InLaneAgrees<T>(q: FairState<T>, lane: Lane, job: JobId)
    requires FairOk(q)
    ensures InLane(q, lane, job) <==> job in Jobs(q.Lane(lane))
  {
    assert Accounted(q, lane);
    HolderAgrees(q.Lane(lane), job);
  }

  lemma RemoveFits<T>(l: LaneState<T>, lane: Lane, p: ProjectId, job: JobId)
    requires Fits(l, lane) && InBucket(l, p, job) && l.len > 0
    ensures Fits(Removed(l, p, job).0, lane) && Removed(l, p, job).0.len == l.len - 1
    ensures Removed(l, p, job).1.Some?
    ensures var e := Removed(l, p, job).1.value;
      && e in Entries(l) && e.job == job && Entries(Removed(l, p, job).0) == Entries(l) - {e}
      && job in Jobs(l) && Jobs(Removed(l, p, job).0) == Jobs(l) - {job}
  {
    RemovedOk(l, p, job);
  }

  lemma TouchFits<T>(l: LaneState<T>, lane: Lane, p: ProjectId, job: JobId, payload: T)
    requires Fits(l, lane) && InBucket(l, p, job)
    ensures Fits(Touched(l, p, job, payload), lane) && Touched(l, p, job, payload).len == l.len
    ensures var e := l.buckets[p][IndexOf(l.buckets[p], job)];
      && e in Entries(l) && e.job == job
      && Entries(Touched(l, p, job, payload)) == Entries(l) - {e} + {e.(payload := payload)}
      && Jobs(Touched(l, p, job, payload)) == Jobs(l)
  {
    TouchedOk(l, p, job, payload);
  }

  lemma RemoveFromKeepsOk<T>(q: FairState<T>, lane: Lane, job: JobId)
    requires FairOk(q) && InLane(q, lane, job)
    ensures FairOk(RemoveFrom(q, lane, job).0) && RemoveFrom(q, lane, job).1.Some?
    ensures var e := RemoveFrom(q, lane, job).1.value;
      e.job == job && e in Held(q) && Held(RemoveFrom(q, lane, job).0) == Held(q) - {e}
  {
    var l, p := q.Lane(lane), HolderOf(q.Lane(lane), job).value;
    assert Accounted(q, lane);
    RemoveFits(l, lane, p, job);
    TakeKeepsOk(q, lane, Removed(l, p, job).0, Removed(l, p, job).1.value, RemoveFrom(q, lane, job).0);
  }

  lemma RemoveKeepsOk<T>(q: FairState<T>, job: JobId)
    requires FairOk(q)
    ensures FairOk(Remove(q, job).0)
    ensures Remove(q, job).1.Some? <==> job in q.jobIds
    ensures Remove(q, job).1.Some? ==> Remove(q, job).1.value.job == job && Remove(q, job).1.value in Held(q)
    ensures Remove(q, job).1.Some? ==> Held(Remove(q, job).0) == Held(q) - {Remove(q, job).1.value}
    ensures Remove(q, job).1.None? ==> Remove(q, job).0 == q
  {
    InLaneAgrees(q, Interactive, job);
    InLaneAgrees(q, Batch, job);
    assert Accounted(q, Interactive);
    if InLane(q, Interactive, job) { RemoveFromKeepsOk(q, Interactive, job); }
    else if InLane(q, Batch, job) { RemoveFromKeepsOk(q, Batch, job); }
  }

  /** Everything about an entry but its payload. */
  datatype Ticket = Ticket(job: JobId, project: ProjectId, lane: Lane, createdAt: Time, enqueuedAt: Time)

  function TicketOf<T>(e: Entry<T>): Ticket {
    Ticket(e.job, e.project, e.lane, e.createdAt, e.enqueuedAt)
  }

  ghost function Tickets<T>(q: FairState<T>): set<Ticket> {
    set e | e in Held(q) :: TicketOf(e)
  }

  lemma TouchInKeepsOk<T>(q: FairState<T>, lane: Lane, job: JobId, payload: T)
    requires FairOk(q) && InLane(q, lane, job)
    ensures FairOk(TouchIn(q, lane, job, payload)) && Tickets(TouchIn(q, lane, job, payload)) == Tickets(q)
  {
    var l, p := q.Lane(lane), HolderOf(q.Lane(lane), job).value;
    var e := l.buckets[p][IndexOf(l.buckets[p], job)];
    var q' := TouchIn(q, lane, job, payload);
    assert Accounted(q, lane);
    TouchFits(l, lane, p, job, payload);
    ExchangeKeepsOk(q, lane, Touched(l, p, job, payload), e, payload, q');
  }

  lemma ExchangeKeepsOk<T>(q: FairState<T>, lane: Lane, l: LaneState<T>, e: Entry<T>, payload: T, q': FairState<T>)
    requires FairOk(q) && Fits(l, lane) && l.len == q.Lane(lane).len && Jobs(l) == Jobs(q.Lane(lane))
    requires e in Entries(q.Lane(lane)) && Entries(l) == Entries(q.Lane(lane)) - {e} + {e.(payload := payload)}
    requires q' == q.With(lane, l)
    ensures FairOk(q') && Tickets(q') == Tickets(q)
  {
    assert Accounted(q, lane);
    RelaneKeepsOk(q, lane, l, q');
    TicketsAfterTouching(q, q', lane, e, payload);
  }

  lemma TicketsAfterTouching<T>(q: FairState<T>, q': FairState<T>, lane: Lane, e: Entry<T>, payload: T)
    requires q'.Lane(Other(lane)) == q.Lane(Other(lane)) && e in Entries(q.Lane(lane))
    requires Entries(q'.Lane(lane)) == Entries(q.Lane(lane)) - {e} + {e.(payload := payload)}
    ensures Tickets(q') == Tickets(q)
  {
    var e' := e.(payload := payload);
    assert TicketOf(e) == TicketOf(e');
    forall t | t in Tickets(q) ensures t in Tickets(q') {
      var f :| f in Held(q) && TicketOf(f) == t;
      assert (if f == e then e' else f) in Held(q');
    }
    forall t | t in Tickets(q') ensures t in Tickets(q) {
      var f :| f in Held(q') && TicketOf(f) == t;
      assert (if f == e' then e else f) in Held(q);
    }
  }

  lemma TouchKeepsOk<T>(q: FairState<T>, job: JobId, payload: T)
    requires FairOk(q)
    ensures FairOk(Touch(q, job, payload)) && Tickets(Touch(q, job, payload)) == Tickets(q)
  {
    if InLane(q, Interactive, job) { TouchInKeepsOk(q, Interactive, job, payload); }
    else if InLane(q, Batch, job) { TouchInKeepsOk(q, Batch, job, payload); }
  }
}
