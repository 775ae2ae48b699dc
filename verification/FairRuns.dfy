/** Long runs of the fair queue: any pushes, pops, removals and payload updates, at any clock values. */
module FairRuns {
  import opened Base
  import opened Lanes
  import opened Fairness

  datatype Op<T> =
    | OpPush(entry: Entry<T>)
    | OpPop(now: Time)
    | OpRemove(job: JobId)
    | OpTouch(job: JobId, payload: T)

  ghost function Apply<T>(q: FairState<T>, op: Op<T>): (q': FairState<T>)
    requires FairOk(q)
    ensures FairOk(q')
  {
    match op
    case OpPush(entry) => PushKeepsOk(q, entry); Push(q, entry)
    case OpPop(now) => PopKeepsOk(q, now); Pop(q, now).0
    case OpRemove(job) => RemoveKeepsOk(q, job); Remove(q, job).0
    case OpTouch(job, payload) => TouchKeepsOk(q, job, payload); Touch(q, job, payload)
  }

  /** The queue after a sequence of operations. */
  ghost function Final<T>(q: FairState<T>, ops: seq<Op<T>>): (q': FairState<T>)
    requires FairOk(q)
    ensures FairOk(q')
    decreases |ops|
  {
    if ops == [] then q else Final(Apply(q, ops[0]), ops[1..])
  }

  function Pops<T>(ops: seq<Op<T>>): nat {
    if ops == [] then 0 else (if ops[0].OpPop? then 1 else 0) + Pops(ops[1..])
  }

  // ----- One operation -----

  ghost predicate SameSchedule<T>(q: FairState<T>, q': FairState<T>) {
    && q'.interactiveWeight == q.interactiveWeight && q'.batchWeight == q.batchWeight
    && q'.cursor == q.cursor && q'.forced == q.forced
  }

  /** A project that is in the ring before and after has not moved back. */
  ghost predicate MovesUp(ring: seq<ProjectId>, ring': seq<ProjectId>, p: ProjectId) {
    p in ring && p in ring' ==> Place(ring', p) <= Place(ring, p)
  }

  lemma {:induction false} AppendKeepsPlace(ring: seq<ProjectId>, added: ProjectId, p: ProjectId)
    requires p in ring
    ensures Place(ring + [added], p) == Place(ring, p)
  {
    if ring[0] != p {
      assert p in ring[1..];
      assert (ring + [added])[1..] == ring[1..] + [added];
      AppendKeepsPlace(ring[1..], added, p);
    }
  }

  lemma RemovedMovesUp<T>(l: LaneState<T>, holder: ProjectId, job: JobId, p: ProjectId)
    requires holder in l.buckets && IndexOf(l.buckets[holder], job) < |l.buckets[holder]| && l.len > 0
    ensures MovesUp(l.ring, Removed(l, holder, job).0.ring, p)
  {
    WithoutDrops(l.ring, holder);
    if p in l.ring && p != holder { WithoutMovesUp(l.ring, holder, p); }
  }

  /** Only pops turn the schedule, and nothing but being served costs a project its place. */
  lemma OthersKeepPlaces<T>(q: FairState<T>, op: Op<T>, lane: Lane, p: ProjectId)
    requires FairOk(q) && !op.OpPop?
    ensures SameSchedule(q, Apply(q, op))
    ensures MovesUp(q.Lane(lane).ring, Apply(q, op).Lane(lane).ring, p)
  {
    match op
    case OpPush(entry) =>
      if p in q.Lane(lane).ring { AppendKeepsPlace(q.Lane(lane).ring, entry.project, p); }
    case OpRemove(job) =>
      if InLane(q, Interactive, job) {
        RemovedMovesUp(q.interactive, HolderOf(q.interactive, job).value, job, p);
      } else if InLane(q, Batch, job) {
        RemovedMovesUp(q.batch, HolderOf(q.batch, job).value, job, p);
      }
    case OpTouch(_, _) =>
  }

  ghost predicate Busy<T>(q: FairState<T>, lane: Lane) {
    q.Lane(lane).ring != []
  }

  /** Where a pop leaves the cursor: an override does not move it, and slots of a lane without
      entries are skipped. */
  ghost function CursorAfter<T>(q: FairState<T>, now: Time): nat {
    if Overrides(q, now) then q.cursor
    else if Busy(q, q.Slot()) then Next(q.cursor, q.Cycle())
    else Next(if q.Slot().Interactive? then q.interactiveWeight else 0, q.Cycle())
  }

  /** What a pop of a non-empty queue does to the schedule and to the rings. */
  lemma PopTurns<T>(q: FairState<T>, now: Time)
    requires FairOk(q) && (Busy(q, Interactive) || Busy(q, Batch))
    ensures Ready(q) && Busy(q, Choice(q, now))
    ensures var q' := Apply(q, OpPop(now));
      && q'.interactiveWeight == q.interactiveWeight && q'.batchWeight == q.batchWeight
      && q'.cursor == CursorAfter(q, now) && q'.forced == Overrides(q, now)
      && q'.Lane(Other(Choice(q, now))) == q.Lane(Other(Choice(q, now)))
      && q'.Lane(Choice(q, now)) == LanePop(q.Lane(Choice(q, now))).0
  {
    QueueEmptiness(q);
    PopServes(q, now);
    NextWraps(q.cursor, q.Cycle());
    NextWraps(q.interactiveWeight, q.Cycle());
    NextWraps(0, q.Cycle());
  }

  // ----- Lanes -----

  /** In every pop of the run `lane` had entries and the other lane was served. */
  ghost predicate Passed<T>(q: FairState<T>, ops: seq<Op<T>>, lane: Lane)
    requires FairOk(q)
    decreases |ops|
  {
    ops == [] ||
    (&& (ops[0].OpPop? ==> Busy(q, lane) && Choice(q, ops[0].now) != lane)
     && Passed(Apply(q, ops[0]), ops[1..], lane))
  }

  /** How many times in a row a lane can be passed over, at worst. */
  function Bound<T>(q: FairState<T>, lane: Lane): nat {
    if lane.Batch? then q.interactiveWeight else 2 * q.batchWeight + 1
  }

  /** And how many times from here. */
  function Patience<T>(q: FairState<T>, lane: Lane): nat {
    if lane.Batch? then
      if q.cursor < q.interactiveWeight then q.interactiveWeight - q.cursor else 0
    else
      (if q.interactiveWeight <= q.cursor < q.Cycle() then 2 * (q.Cycle() - q.cursor) else 0)
      + (if q.forced then 0 else 1)
  }

  lemma PassingCostsPatience<T>(q: FairState<T>, now: Time, lane: Lane)
    requires FairOk(q) && Busy(q, lane) && Choice(q, now) != lane
    ensures Patience(Apply(q, OpPop(now)), lane) < Patience(q, lane)
    ensures Bound(Apply(q, OpPop(now)), lane) == Bound(q, lane)
  {
    PopTurns(q, now);
  }

  /** Bounded waiting between lanes: whatever is pushed, removed or touched in between and whatever
      the clock says, a lane with entries is passed over at most interactiveWeight times in a row
      (batch) or 2 * batchWeight + 1 times in a row (interactive, aging overrides included). */
  lemma {:induction false} LanesWaitBoundedly<T>(q: FairState<T>, ops: seq<Op<T>>, lane: Lane)
    requires FairOk(q) && Passed(q, ops, lane)
    ensures Pops(ops) <= Patience(q, lane) <= Bound(q, lane)
    decreases |ops|
  {
    if ops != [] {
      var q' := Apply(q, ops[0]);
      LanesWaitBoundedly(q', ops[1..], lane);
      if ops[0].OpPop? { PassingCostsPatience(q, ops[0].now, lane); } else { OthersKeepPlaces(q, ops[0], lane, ""); }
    }
  }

  /** Every pop of the run finds a batch entry that has waited for the aging period. */
  ghost predicate AlwaysAged<T>(q: FairState<T>, ops: seq<Op<T>>)
    requires FairOk(q)
    decreases |ops|
  {
    ops == [] || ((ops[0].OpPop? ==> HoldsAged(q, ops[0].now)) && AlwaysAged(Apply(q, ops[0]), ops[1..]))
  }

  ghost function InteractivePops<T>(q: FairState<T>, ops: seq<Op<T>>): nat
    requires FairOk(q)
    decreases |ops|
  {
    if ops == [] then 0
    else
      (if ops[0].OpPop? && Ready(q) && Pop(q, ops[0].now).1.Some? && Pop(q, ops[0].now).1.value.lane == Interactive then 1 else 0)
      + InteractivePops(Apply(q, ops[0]), ops[1..])
  }

  lemma AgedPopAlternates<T>(q: FairState<T>, now: Time)
    requires FairOk(q) && HoldsAged(q, now)
    ensures var q' := Apply(q, OpPop(now));
      && Ready(q) && Pop(q, now).1.Some?
      && (Pop(q, now).1.value.lane == Interactive ==> q.forced && !q'.forced)
      && (!q.forced ==> q'.forced)
  {
    if q.forced { ScheduleDecides(q, now); } else { AgedBatchJumps(q, now); }
  }

  /** With an aged batch entry there at every pop, no two pops in a row serve Interactive: of any
      number of pops at most half, rounded up, do. */
  lemma {:induction false} AgedBatchIsServed<T>(q: FairState<T>, ops: seq<Op<T>>)
    requires FairOk(q) && AlwaysAged(q, ops)
    ensures 2 * InteractivePops(q, ops) <= Pops(ops) + (if q.forced then 1 else 0)
    decreases |ops|
  {
    if ops != [] {
      AgedBatchIsServed(Apply(q, ops[0]), ops[1..]);
      if ops[0].OpPop? { AgedPopAlternates(q, ops[0].now); } else { OthersKeepPlaces(q, ops[0], Batch, ""); }
    }
  }

  // ----- Projects -----

  /** Throughout the run the project keeps entries in the lane, and no pop takes one of them. */
  ghost predicate Unserved<T>(q: FairState<T>, ops: seq<Op<T>>, lane: Lane, p: ProjectId)
    requires FairOk(q)
    decreases |ops|
  {
    && p in q.Lane(lane).ring
    && (ops != [] ==>
          && (ops[0].OpPop? && Choice(q, ops[0].now) == lane ==> q.Lane(lane).ring[0] != p)
          && Unserved(Apply(q, ops[0]), ops[1..], lane, p))
  }

  /** The pops of the run that serve the lane. */
  ghost function LanePops<T>(q: FairState<T>, ops: seq<Op<T>>, lane: Lane): nat
    requires FairOk(q)
    decreases |ops|
  {
    if ops == [] then 0
    else (if ops[0].OpPop? && Choice(q, ops[0].now) == lane then 1 else 0) + LanePops(Apply(q, ops[0]), ops[1..], lane)
  }

  lemma ServiceMovesUp<T>(q: FairState<T>, now: Time, lane: Lane, p: ProjectId)
    requires FairOk(q) && p in q.Lane(lane).ring && Choice(q, now) == lane && q.Lane(lane).ring[0] != p
    ensures p in Apply(q, OpPop(now)).Lane(lane).ring
    ensures Place(Apply(q, OpPop(now)).Lane(lane).ring, p) < Place(q.Lane(lane).ring, p)
  {
    PopTurns(q, now);
    var ring := q.Lane(lane).ring;
    var ring' := LanePop(q.Lane(lane)).0.ring;
    var k := Place(ring, p);
    assert ring'[k - 1] == ring[k];
    PlaceIsFirst(ring', p, k - 1);
  }

  /** Round robin: a project at place k of a lane's ring that keeps entries is served within k + 1
      pops of that lane. */
  lemma {:induction false} ProjectsTakeTurns<T>(q: FairState<T>, ops: seq<Op<T>>, lane: Lane, p: ProjectId)
    requires FairOk(q) && Unserved(q, ops, lane, p)
    ensures LanePops(q, ops, lane) <= Place(q.Lane(lane).ring, p)
    decreases |ops|
  {
    if ops != [] {
      ProjectsTakeTurns(Apply(q, ops[0]), ops[1..], lane, p);
      if ops[0].OpPop? { PopMovesUp(q, ops[0].now, lane, p); } else { OthersKeepPlaces(q, ops[0], lane, p); }
    }
  }

  lemma PopMovesUp<T>(q: FairState<T>, now: Time, lane: Lane, p: ProjectId)
    requires FairOk(q) && p in q.Lane(lane).ring && (Choice(q, now) == lane ==> q.Lane(lane).ring[0] != p)
    ensures p in Apply(q, OpPop(now)).Lane(lane).ring
    ensures Place(Apply(q, OpPop(now)).Lane(lane).ring, p) + (if Choice(q, now) == lane then 1 else 0)
      <= Place(q.Lane(lane).ring, p)
  {
    if Choice(q, now) == lane { ServiceMovesUp(q, now, lane, p); } else { PopTurns(q, now); }
  }

  /** How many more pops of the whole queue a project can be passed over. */
  ghost function Wait<T>(q: FairState<T>, lane: Lane, p: ProjectId): nat
    requires p in q.Lane(lane).ring
  {
    Place(q.Lane(lane).ring, p) * (Bound(q, lane) + 1) + Patience(q, lane)
  }

  lemma PatienceIsBounded<T>(q: FairState<T>, lane: Lane)
    requires FairOk(q)
    ensures Patience(q, lane) <= Bound(q, lane)
  {}

  lemma PopShortensWait<T>(q: FairState<T>, now: Time, lane: Lane, p: ProjectId)
    requires FairOk(q) && p in q.Lane(lane).ring && (Choice(q, now) == lane ==> q.Lane(lane).ring[0] != p)
    ensures p in Apply(q, OpPop(now)).Lane(lane).ring
    ensures Wait(Apply(q, OpPop(now)), lane, p) < Wait(q, lane, p)
  {
    var q' := Apply(q, OpPop(now));
    PopMovesUp(q, now, lane, p);
    PopTurns(q, now);
    PatienceIsBounded(q', lane);
    if Choice(q, now) != lane { PassingCostsPatience(q, now, lane); }
    TurnsOutweighPasses(Place(q'.Lane(lane).ring, p), Place(q.Lane(lane).ring, p), Bound(q, lane) + 1);
  }

  lemma TurnsOutweighPasses(k': nat, k: nat, turn: nat)
    requires k' <= k
    ensures k' * turn <= k * turn
    ensures k' < k ==> k' * turn + turn <= k * turn
  {
    assert (k - k') * turn == k * turn - k' * turn;
    if k' < k { assert (k - k' - 1) * turn == (k - k') * turn - turn; }
  }

  lemma OthersKeepWait<T>(q: FairState<T>, op: Op<T>, lane: Lane, p: ProjectId)
    requires FairOk(q) && !op.OpPop? && p in q.Lane(lane).ring && p in Apply(q, op).Lane(lane).ring
    ensures Wait(Apply(q, op), lane, p) <= Wait(q, lane, p)
  {
    OthersKeepPlaces(q, op, lane, p);
    TurnsOutweighPasses(Place(Apply(q, op).Lane(lane).ring, p), Place(q.Lane(lane).ring, p), Bound(q, lane) + 1);
  }

  lemma {:induction false} WaitIsBounded<T>(q: FairState<T>, ops: seq<Op<T>>, lane: Lane, p: ProjectId)
    requires FairOk(q) && Unserved(q, ops, lane, p)
    ensures Pops(ops) <= Wait(q, lane, p)
    decreases |ops|
  {
    if ops != [] {
      WaitIsBounded(Apply(q, ops[0]), ops[1..], lane, p);
      if ops[0].OpPop? { PopShortensWait(q, ops[0].now, lane, p); } else { OthersKeepWait(q, ops[0], lane, p); }
    }
  }

  /** No starvation: a project at place k that keeps entries waits, counting every pop of the whole
      queue, no longer than k full turns of its lane and one more wait for the lane. */
  lemma NobodyStarves<T>(q: FairState<T>, ops: seq<Op<T>>, lane: Lane, p: ProjectId)
    requires FairOk(q) && Unserved(q, ops, lane, p)
    ensures Pops(ops) <= Place(q.Lane(lane).ring, p) * (Bound(q, lane) + 1) + Bound(q, lane)
  {
    WaitIsBounded(q, ops, lane, p);
    PatienceIsBounded(q, lane);
  }

  /** Within a project, entries leave in (created_at, job_id) order. */
  lemma PopIsFifo<T>(q: FairState<T>, now: Time, e: Entry<T>)
    requires FairOk(q) && Ready(q) && Pop(q, now).1.Some? && e in Held(q)
    requires e.lane == Pop(q, now).1.value.lane && e.project == Pop(q, now).1.value.project
    ensures e == Pop(q, now).1.value || Precedes(Pop(q, now).1.value, e)
  {
    PopKeepsOk(q, now);
    QueueEmptiness(q);
    PopTurns(q, now);
    PopServes(q, now);
    var lane := Choice(q, now);
    assert Accounted(q, lane) && Accounted(q, Other(lane));
    PopOk(q.Lane(lane));
    PopYieldsLeast(q.Lane(lane), e);
  }

  // ----- Shares -----

  /** Both lanes have entries before every pop, and no pop is an aging override. */
  ghost predicate Saturated<T>(q: FairState<T>, ops: seq<Op<T>>)
    requires FairOk(q)
    decreases |ops|
  {
    ops == [] ||
    (&& (ops[0].OpPop? ==> Busy(q, Interactive) && Busy(q, Batch) && !Overrides(q, ops[0].now))
     && Saturated(Apply(q, ops[0]), ops[1..]))
  }

  function Least(a: int, b: int): int {
    if a < b then a else b
  }

  /** Interactive slots among the `n` that follow a cursor, up to one full cycle. */
  function Slots(cursor: nat, weight: nat, cycle: nat, n: nat): int {
    var end := cursor + n;
    if end <= cycle then Least(end, weight) - Least(cursor, weight)
    else weight - Least(cursor, weight) + Least(end - cycle, weight)
  }

  lemma SlotsFollowCursor(cursor: nat, weight: nat, cycle: nat, n: nat)
    requires cursor < cycle && weight < cycle && 0 < n <= cycle
    ensures Slots(cursor, weight, cycle, n) ==
      (if cursor < weight then 1 else 0) + Slots(Next(cursor, cycle), weight, cycle, n - 1)
  {}

  ghost function SlotsAhead<T>(q: FairState<T>, n: nat): int {
    Slots(q.cursor, q.interactiveWeight, q.Cycle(), n)
  }

  lemma PopFollowsSlots<T>(q: FairState<T>, now: Time, n: nat)
    requires FairOk(q) && Busy(q, Interactive) && Busy(q, Batch) && !Overrides(q, now) && 0 < n <= q.Cycle()
    ensures SlotsAhead(q, n) == (if Choice(q, now).Interactive? then 1 else 0) + SlotsAhead(Apply(q, OpPop(now)), n - 1)
    ensures Apply(q, OpPop(now)).Cycle() == q.Cycle()
  {
    PopTurns(q, now);
    SlotsFollowCursor(q.cursor, q.interactiveWeight, q.Cycle(), n);
  }

  lemma OthersKeepSlots<T>(q: FairState<T>, op: Op<T>, n: nat)
    requires FairOk(q) && !op.OpPop?
    ensures SlotsAhead(q, n) == SlotsAhead(Apply(q, op), n) && Apply(q, op).Cycle() == q.Cycle()
  {
    OthersKeepPlaces(q, op, Batch, "");
  }

  lemma {:induction false} SharesFollowSlots<T>(q: FairState<T>, ops: seq<Op<T>>)
    requires FairOk(q) && Saturated(q, ops) && Pops(ops) <= q.Cycle()
    ensures LanePops(q, ops, Interactive) == SlotsAhead(q, Pops(ops))
    decreases |ops|
  {
    if ops != [] {
      if ops[0].OpPop? { PopFollowsSlots(q, ops[0].now, Pops(ops)); } else { OthersKeepSlots(q, ops[0], Pops(ops)); }
      SharesFollowSlots(Apply(q, ops[0]), ops[1..]);
    }
  }

  lemma {:induction false} EveryPopHasALane<T>(q: FairState<T>, ops: seq<Op<T>>)
    requires FairOk(q)
    ensures LanePops(q, ops, Interactive) + LanePops(q, ops, Batch) == Pops(ops)
    decreases |ops|
  {
    if ops != [] { EveryPopHasALane(Apply(q, ops[0]), ops[1..]); }
  }

  /** Exact weighted share, from any position of the schedule. */
  lemma SharesAreExact<T>(q: FairState<T>, ops: seq<Op<T>>)
    requires FairOk(q) && Saturated(q, ops) && Pops(ops) == q.interactiveWeight + q.batchWeight
    ensures LanePops(q, ops, Interactive) == q.interactiveWeight
    ensures LanePops(q, ops, Batch) == q.batchWeight
  {
    SharesFollowSlots(q, ops);
    EveryPopHasALane(q, ops);
  }

  // ----- Conservation -----

  /** The entry an operation takes in. */
  function Accepted<T>(q: FairState<T>, op: Op<T>): Option<Ticket> {
    if op.OpPush? && PushRefusal(q, op.entry).None? then Some(TicketOf(op.entry)) else None
  }

  function Stub<T>(e: Option<Entry<T>>): Option<Ticket> {
    if e.Some? then Some(TicketOf(e.value)) else None
  }

  /** The entry an operation gives out. */
  ghost function Departed<T>(q: FairState<T>, op: Op<T>): Option<Ticket>
    requires FairOk(q)
  {
    OkIsReady(q);
    match op
    case OpPop(now) => Stub(Pop(q, now).1)
    case OpRemove(job) => Stub(Remove(q, job).1)
    case _ => None
  }

  function Bag(t: Option<Ticket>): multiset<Ticket> {
    if t.Some? then multiset{t.value} else multiset{}
  }

  ghost function AllAccepted<T>(q: FairState<T>, ops: seq<Op<T>>): multiset<Ticket>
    requires FairOk(q)
    decreases |ops|
  {
    if ops == [] then multiset{} else Bag(Accepted(q, ops[0])) + AllAccepted(Apply(q, ops[0]), ops[1..])
  }

  ghost function AllDeparted<T>(q: FairState<T>, ops: seq<Op<T>>): multiset<Ticket>
    requires FairOk(q)
    decreases |ops|
  {
    if ops == [] then multiset{} else Bag(Departed(q, ops[0])) + AllDeparted(Apply(q, ops[0]), ops[1..])
  }

  lemma HeldJobsDiffer<T>(q: FairState<T>, e: Entry<T>, f: Entry<T>)
    requires FairOk(q) && e in Held(q) && f in Held(q) && e.job == f.job
    ensures e == f
  {
    assert Accounted(q, Interactive) && Accounted(q, Batch);
    assert e.job in Jobs(q.interactive) || e.job in Jobs(q.batch);
  }

  lemma TicketsAfterAdding<T>(q: FairState<T>, q': FairState<T>, x: Entry<T>)
    requires FairOk(q) && Held(q') == Held(q) + {x} && x.job !in q.jobIds
    ensures Tickets(q') == Tickets(q) + {TicketOf(x)} && TicketOf(x) !in Tickets(q)
  {
    forall e | e in Held(q) ensures e.job in q.jobIds { HeldJobsAreIndexed(q, e); }
    TicketsOfUnion(Held(q), Held(q'), x);
  }

  lemma HeldJobsAreIndexed<T>(q: FairState<T>, e: Entry<T>)
    requires FairOk(q) && e in Held(q)
    ensures e.job in q.jobIds
  {
    assert Accounted(q, Interactive);
  }

  lemma TicketsOfUnion<T>(held: set<Entry<T>>, held': set<Entry<T>>, x: Entry<T>)
    requires held' == held + {x}
    ensures (set e | e in held' :: TicketOf(e)) == (set e | e in held :: TicketOf(e)) + {TicketOf(x)}
  {}

  lemma TicketsAfterTaking<T>(q: FairState<T>, q': FairState<T>, x: Entry<T>)
    requires FairOk(q) && x in Held(q) && Held(q') == Held(q) - {x}
    ensures Tickets(q') == Tickets(q) - {TicketOf(x)} && TicketOf(x) in Tickets(q)
  {
    forall e | e in Held(q) && TicketOf(e) == TicketOf(x) ensures e == x { HeldJobsDiffer(q, e, x); }
    forall t | t in Tickets(q) && t != TicketOf(x) ensures t in Tickets(q') {
      var e :| e in Held(q) && TicketOf(e) == t;
      assert e in Held(q');
    }
  }

  lemma OpConserves<T>(q: FairState<T>, op: Op<T>)
    requires FairOk(q)
    ensures multiset(Tickets(q)) + Bag(Accepted(q, op)) == Bag(Departed(q, op)) + multiset(Tickets(Apply(q, op)))
  {
    var q' := Apply(q, op);
    match op
    case OpPush(entry) =>
      PushKeepsOk(q, entry);
      if PushRefusal(q, entry).None? { AddedConserves(q, q', entry); }
    case OpPop(now) =>
      PopKeepsOk(q, now);
      if Pop(q, now).1.Some? { TakenConserves(q, q', Pop(q, now).1.value); }
    case OpRemove(job) =>
      RemoveKeepsOk(q, job);
      if Remove(q, job).1.Some? { TakenConserves(q, q', Remove(q, job).1.value); }
    case OpTouch(job, payload) =>
      TouchKeepsOk(q, job, payload);
  }

  lemma AddedConserves<T>(q: FairState<T>, q': FairState<T>, x: Entry<T>)
    requires FairOk(q) && Held(q') == Held(q) + {x} && x.job !in q.jobIds
    ensures multiset(Tickets(q)) + multiset{TicketOf(x)} == multiset(Tickets(q'))
  {
    TicketsAfterAdding(q, q', x);
  }

  lemma TakenConserves<T>(q: FairState<T>, q': FairState<T>, x: Entry<T>)
    requires FairOk(q) && x in Held(q) && Held(q') == Held(q) - {x}
    ensures multiset(Tickets(q)) == multiset{TicketOf(x)} + multiset(Tickets(q'))
  {
    TicketsAfterTaking(q, q', x);
  }

  lemma BagsBalance<A>(held: multiset<A>, first: multiset<A>, gone: multiset<A>, held': multiset<A>,
                       others: multiset<A>, othersGone: multiset<A>, end: multiset<A>)
    requires held + first == gone + held' && held' + others == othersGone + end
    ensures held + (first + others) == (gone + othersGone) + end
  {
    assert held + (first + others) == (gone + held') + others;
    assert (gone + held') + others == gone + (othersGone + end);
  }

  /** Conservation: over any run, what was held and what was accepted is what has been popped or
      removed together with what is still held, each entry as often as it came. */
  lemma {:induction false} NothingIsLost<T>(q: FairState<T>, ops: seq<Op<T>>)
    requires FairOk(q)
    ensures multiset(Tickets(q)) + AllAccepted(q, ops) == AllDeparted(q, ops) + multiset(Tickets(Final(q, ops)))
    decreases |ops|
  {
    if ops != [] {
      var q' := Apply(q, ops[0]);
      OpConserves(q, ops[0]);
      NothingIsLost(q', ops[1..]);
      BagsBalance(multiset(Tickets(q)), Bag(Accepted(q, ops[0])), Bag(Departed(q, ops[0])), multiset(Tickets(q')),
                  AllAccepted(q', ops[1..]), AllDeparted(q', ops[1..]), multiset(Tickets(Final(q', ops[1..]))));
    }
  }
}
