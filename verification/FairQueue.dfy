/** The fair queue as the dispatcher holds it: mutable lanes, ring and cursor, proved to do what
    the specification functions of Lanes and Fairness say. */
module FairQueueObjects {
  import opened Base
  import opened Lanes
  import opened Fairness

  class LaneQueue<T(==)> {
    var projects: map<ProjectId, seq<Entry<T>>>
    var ring: seq<ProjectId>
    var len: nat

    ghost function State(): LaneState<T>
      reads this
    {
      LaneState(projects, ring, len)
    }

    constructor ()
      ensures State() == EmptyLane()
    {
      projects, ring, len := map[], [], 0;
    }

    /** Binary search for the place of a new entry. */
    static method Position(bucket: seq<Entry<T>>, entry: Entry<T>) returns (position: nat)
      requires Sorted(bucket)
      ensures position == InsertionPoint(bucket, entry)
    {
      var low, high := 0, |bucket|;
      while low < high
        invariant low <= high <= |bucket|
        invariant forall i :: 0 <= i < low ==> Precedes(bucket[i], entry)
        invariant forall i :: high <= i < |bucket| ==> !Precedes(bucket[i], entry)
      {
        var middle := (low + high) / 2;
        if Precedes(bucket[middle], entry) {
          EarlierPrecede(bucket, entry, middle);
          low := middle + 1;
        } else {
          LaterDoNot(bucket, entry, middle);
          high := middle;
        }
      }
      position := low;
      InsertionPointIsUnique(bucket, entry, low);
    }

    method Push(entry: Entry<T>)
      requires Synchronized(State())
      modifies this
      ensures State() == LanePush(old(State()), entry)
    {
      if entry.project !in projects {
        ring := ring + [entry.project];
        projects := projects[entry.project := []];
      }
      var bucket := projects[entry.project];
      var position := Position(bucket, entry);
      projects := projects[entry.project := bucket[..position] + [entry] + bucket[position..]];
      len := len + 1;
    }

    method Pop() returns (popped: Option<Entry<T>>)
      requires Poppable(State())
      modifies this
      ensures (State(), popped) == LanePop(old(State()))
    {
      if ring == [] { return None; }
      var project := ring[0];
      ring := ring[1..];
      var bucket := projects[project];
      popped := Some(bucket[0]);
      if |bucket| > 1 {
        projects := projects[project := bucket[1..]];
        ring := ring + [project];
      } else {
        projects := projects - {project};
      }
      len := len - 1;
    }

    method FindProject(job: JobId) returns (holder: Option<ProjectId>)
      requires Findable(State(), job)
      ensures holder == HolderOf(State(), job)
    {
      var left := projects.Keys;
      while left != {}
        invariant left <= projects.Keys
        invariant forall p :: p in projects && p !in left ==> !InBucket(State(), p, job)
        decreases left
      {
        var p :| p in left;
        if exists entry :: entry in projects[p] && entry.job == job {
          assert InBucket(State(), p, job);
          return Some(p);
        }
        assert !InBucket(State(), p, job);
        left := left - {p};
      }
      return None;
    }

    static method FindEntry(bucket: seq<Entry<T>>, job: JobId) returns (i: nat)
      requires HasJob(bucket, job)
      ensures i < |bucket| && i == IndexOf(bucket, job)
    {
      i := 0;
      while bucket[i].job != job
        invariant i < |bucket| && i <= IndexOf(bucket, job) < |bucket|
        decreases |bucket| - i
      {
        i := i + 1;
      }
    }

    method Remove(job: JobId) returns (removed: Option<Entry<T>>)
      requires Findable(State(), job)
      modifies this
      ensures (State(), removed) == LaneRemove(old(State()), job)
    {
      var holder := FindProject(job);
      if holder.None? { return None; }
      var project := holder.value;
      var bucket := projects[project];
      var i := FindEntry(bucket, job);
      removed := Some(bucket[i]);
      var rest := bucket[..i] + bucket[i + 1..];
      if rest == [] {
        projects := projects - {project};
        ring := Retain(ring, project);
      } else {
        projects := projects[project := rest];
      }
      len := len - 1;
    }

    static method Retain(ring: seq<ProjectId>, project: ProjectId) returns (kept: seq<ProjectId>)
      ensures kept == Without(ring, project)
    {
      kept := [];
      for i := 0 to |ring|
        invariant kept + Without(ring[i..], project) == Without(ring, project)
      {
        if ring[i] != project { kept := kept + [ring[i]]; }
      }
    }

    /** The earliest insertion time of any entry. */
    method OldestEnqueuedAt() returns (oldest: Option<Time>)
      ensures oldest.None? <==> Entries(State()) == {}
      ensures oldest.Some? ==> exists e :: e in Entries(State()) && e.enqueuedAt == oldest.value
      ensures oldest.Some? ==> forall e :: e in Entries(State()) ==> oldest.value <= e.enqueuedAt
    {
      oldest := None;
      ghost var seen: set<Entry<T>> := {};
      var left := projects.Keys;
      while left != {}
        invariant left <= projects.Keys
        invariant seen <= Entries(State())
        invariant forall p, e :: p in projects && p !in left && e in projects[p] ==> e in seen
        invariant IsOldest(seen, oldest)
        decreases left
      {
        var p :| p in left;
        var bucket := projects[p];
        for i := 0 to |bucket|
          invariant seen <= Entries(State())
          invariant forall k :: 0 <= k < i ==> bucket[k] in seen
          invariant forall q, e :: q in projects && q !in left && e in projects[q] ==> e in seen
          invariant IsOldest(seen, oldest)
        {
          Enters(State(), p, bucket[i]);
          StillOldest(seen, oldest, bucket[i]);
          if oldest.None? || bucket[i].enqueuedAt < oldest.value { oldest := Some(bucket[i].enqueuedAt); }
          seen := seen + {bucket[i]};
        }
        left := left - {p};
      }
      assert seen == Entries(State());
    }

    /** What holding a mutable reference to an entry is used for. */
    method Update(job: JobId, payload: T) returns (found: bool)
      requires Findable(State(), job)
      modifies this
      ensures found <==> HolderOf(old(State()), job).Some?
      ensures !found ==> State() == old(State())
      ensures found ==> State() == Touched(old(State()), HolderOf(old(State()), job).value, job, payload)
    {
      var holder := FindProject(job);
      if holder.None? { return false; }
      var bucket := projects[holder.value];
      var i := FindEntry(bucket, job);
      projects := projects[holder.value := bucket[i := bucket[i].(payload := payload)]];
      return true;
    }
  }

  /** A job is in at most one bucket, and the count of a lane that holds it is positive. */
  ghost predicate Findable<T>(l: LaneState<T>, job: JobId) {
    && (HolderOf(l, job).Some? ==> l.len > 0)
    && (forall p :: InBucket(l, p, job) ==> HolderOf(l, job) == Some(p))
  }

  lemma {:induction false} InsertionPointIsUnique<T>(bucket: seq<Entry<T>>, entry: Entry<T>, at: nat)
    requires at <= |bucket|
    requires forall i :: 0 <= i < at ==> Precedes(bucket[i], entry)
    requires at < |bucket| ==> !Precedes(bucket[at], entry)
    ensures at == InsertionPoint(bucket, entry)
  {
    if at > 0 { InsertionPointIsUnique(bucket[1..], entry, at - 1); }
  }

  lemma EarlierPrecede<T>(bucket: seq<Entry<T>>, entry: Entry<T>, middle: nat)
    requires Sorted(bucket) && middle < |bucket| && Precedes(bucket[middle], entry)
    ensures forall i :: 0 <= i <= middle ==> Precedes(bucket[i], entry)
  {
    forall i | 0 <= i < middle ensures Precedes(bucket[i], entry) {
      PrecedesIsTransitive(bucket[i], bucket[middle], entry);
    }
  }

  lemma LaterDoNot<T>(bucket: seq<Entry<T>>, entry: Entry<T>, middle: nat)
    requires Sorted(bucket) && middle < |bucket| && !Precedes(bucket[middle], entry)
    ensures forall i :: middle <= i < |bucket| ==> !Precedes(bucket[i], entry)
  {
    forall i | middle < i < |bucket| ensures !Precedes(bucket[i], entry) {
      if Precedes(bucket[i], entry) { PrecedesIsTransitive(bucket[middle], bucket[i], entry); }
    }
  }

  ghost predicate IsOldest<T>(seen: set<Entry<T>>, oldest: Option<Time>) {
    && (oldest.None? <==> seen == {})
    && (oldest.Some? ==> exists e :: e in seen && e.enqueuedAt == oldest.value)
    && (oldest.Some? ==> forall e :: e in seen ==> oldest.value <= e.enqueuedAt)
  }

  lemma StillOldest<T>(seen: set<Entry<T>>, oldest: Option<Time>, x: Entry<T>)
    requires IsOldest(seen, oldest)
    ensures IsOldest(seen + {x},
      if oldest.None? || x.enqueuedAt < oldest.value then Some(x.enqueuedAt) else oldest)
  {
    assert x in seen + {x};
    if oldest.Some? {
      var e :| e in seen && e.enqueuedAt == oldest.value;
      assert e in seen + {x};
    }
  }

  class FairQueue<T(==)> {
    const capacity: nat
    const batchAging: int
    const schedule: seq<Lane>
    ghost const interactiveWeight: nat
    ghost const batchWeight: nat
    const interactive: LaneQueue<T>
    const batch: LaneQueue<T>
    var cursor: nat
    var jobIds: set<JobId>
    var len: nat
    var lastPopForced: bool

    ghost function State(): FairState<T>
      reads this, interactive, batch
    {
      FairState(capacity, batchAging, interactiveWeight, batchWeight, cursor,
                interactive.State(), batch.State(), jobIds, len, lastPopForced)
    }

    ghost predicate Shaped()
      reads this
    {
      && interactive != batch
      && |schedule| == interactiveWeight + batchWeight
      && forall i :: 0 <= i < |schedule| ==> schedule[i] == if i < interactiveWeight then Interactive else Batch
    }

    ghost predicate Valid()
      reads this, interactive, batch
    {
      Shaped() && FairOk(State())
    }

    constructor (config: Config)
      requires New<T>(config).Ok?
      ensures Valid() && State() == New(config).value
      ensures fresh(interactive) && fresh(batch)
    {
      capacity, batchAging := config.capacity, config.aging;
      interactiveWeight, batchWeight := config.interactiveWeight, config.batchWeight;
      schedule := seq(config.interactiveWeight, _ => Interactive) + seq(config.batchWeight, _ => Batch);
      var first := new LaneQueue<T>();
      var second := new LaneQueue<T>();
      interactive, batch := first, second;
      cursor, jobIds, len, lastPopForced := 0, {}, 0, false;
      new;
      NewIsOk<T>(config);
    }

    method Contains(job: JobId) returns (found: bool)
      requires Valid()
      ensures found <==> exists e :: e in Held(State()) && e.job == job
    {
      assert Accounted(State(), Interactive);
      return job in jobIds;
    }

    method Push(entry: Entry<T>) returns (refused: Option<PushError>)
      requires Valid()
      modifies this, interactive, batch
      ensures Valid()
      ensures refused == PushRefusal(old(State()), entry) && State() == Fairness.Push(old(State()), entry)
    {
      if entry.job in jobIds { return Some(Duplicate); }
      if len == capacity { return Some(Full); }
      PushKeepsOk(State(), entry);
      LanesAreSynchronized(State());
      jobIds := jobIds + {entry.job};
      if entry.lane.Interactive? { interactive.Push(entry); } else { batch.Push(entry); }
      len := len + 1;
      return None;
    }

    method PopLane(lane: Lane) returns (popped: Option<Entry<T>>)
      requires Shaped() && Ready(State())
      modifies this, interactive, batch
      ensures (State(), popped) == PopFrom(old(State()), lane)
    {
      if lane.Interactive? { popped := interactive.Pop(); } else { popped := batch.Pop(); }
      if popped.Some? {
        jobIds := jobIds - {popped.value.job};
        len := len - 1;
      }
    }

    method PopScheduled() returns (popped: Option<Entry<T>>)
      requires Shaped() && Ready(State()) && cursor < |schedule|
      modifies this, interactive, batch
      ensures (State(), popped) == Scan(old(State()), |schedule|)
    {
      for i := 0 to |schedule|
        invariant Ready(State()) && cursor < |schedule|
        invariant Scan(State(), |schedule| - i) == Scan(old(State()), |schedule|)
      {
        var lane := schedule[cursor];
        cursor := (cursor + 1) % |schedule|;
        popped := PopLane(lane);
        if popped.Some? { return; }
      }
      return None;
    }

    method Pop(now: Time) returns (popped: Option<Entry<T>>)
      requires Valid()
      modifies this, interactive, batch
      ensures Valid() && Ready(old(State())) && (State(), popped) == Fairness.Pop(old(State()), now)
    {
      PopKeepsOk(State(), now);
      var oldest := batch.OldestEnqueuedAt();
      var aged := oldest.Some? && now - oldest.value >= batchAging;
      if aged && !lastPopForced {
        lastPopForced := true;
        popped := PopLane(Batch);
      } else {
        lastPopForced := false;
        popped := PopScheduled();
      }
    }

    method Remove(job: JobId) returns (removed: Option<Entry<T>>)
      requires Valid()
      modifies this, interactive, batch
      ensures Valid() && (State(), removed) == Fairness.Remove(old(State()), job)
    {
      ghost var before := State();
      RemoveTriesLanes(before, job);
      removed := interactive.Remove(job);
      if removed.None? {
        assert State() == before;
        removed := batch.Remove(job);
      }
      if removed.Some? {
        jobIds := jobIds - {job};
        len := len - 1;
      }
    }

    method Update(job: JobId, payload: T) returns (found: bool)
      requires Valid()
      modifies this, interactive, batch
      ensures Valid() && State() == Touch(old(State()), job, payload)
      ensures found <==> InLane(old(State()), Interactive, job) || InLane(old(State()), Batch, job)
    {
      TouchKeepsOk(State(), job, payload);
      LanesFindJobs(State(), job);
      found := interactive.Update(job, payload);
      if !found { found := batch.Update(job, payload); }
    }
  }

  /** What removing a job from one lane gives. */
  ghost function LaneRemove<T>(l: LaneState<T>, job: JobId): (LaneState<T>, Option<Entry<T>>) {
    if HolderOf(l, job).Some? && l.len > 0 then Removed(l, HolderOf(l, job).value, job) else (l, None)
  }

  /** A removal tries the interactive lane first and the batch lane otherwise. */
  lemma RemoveTriesLanes<T>(q: FairState<T>, job: JobId)
    requires FairOk(q)
    ensures FairOk(Remove(q, job).0) && Findable(q.interactive, job) && Findable(q.batch, job)
    ensures var (l, removed) := LaneRemove(q.interactive, job);
      removed.Some? ==> q.len > 0 && Remove(q, job) == (q.(interactive := l, jobIds := q.jobIds - {job}, len := q.len - 1), removed)
    ensures var (l, removed) := LaneRemove(q.batch, job);
      LaneRemove(q.interactive, job).1.None? && removed.Some? ==>
        q.len > 0 && Remove(q, job) == (q.(batch := l, jobIds := q.jobIds - {job}, len := q.len - 1), removed)
    ensures LaneRemove(q.interactive, job).1.None? ==> LaneRemove(q.interactive, job).0 == q.interactive
    ensures LaneRemove(q.batch, job).1.None? ==> LaneRemove(q.batch, job).0 == q.batch
    ensures LaneRemove(q.interactive, job).1.None? && LaneRemove(q.batch, job).1.None? ==> Remove(q, job) == (q, None)
  {
    LanesFindJobs(q, job);
    RemoveKeepsOk(q, job);
  }

  lemma LanesAreSynchronized<T>(q: FairState<T>)
    requires FairOk(q)
    ensures Synchronized(q.interactive) && Synchronized(q.batch)
  {
    assert Accounted(q, Interactive) && Accounted(q, Batch);
  }

  lemma LanesFindJobs<T>(q: FairState<T>, job: JobId)
    requires FairOk(q)
    ensures Findable(q.interactive, job) && Findable(q.batch, job)
    ensures InLane(q, Interactive, job) <==> HolderOf(q.interactive, job).Some?
    ensures InLane(q, Batch, job) <==> HolderOf(q.batch, job).Some?
  {
    assert Accounted(q, Interactive) && Accounted(q, Batch);
    HolderAgrees(q.interactive, job);
    HolderAgrees(q.batch, job);
  }

  /** The fallible construction. */
  method Build<T(==)>(config: Config) returns (r: Result<FairQueue<T>, ConfigError>)
    ensures r.Err? <==> New<T>(config).Err?
    ensures r.Err? ==> New<T>(config) == Err(r.error)
    ensures r.Ok? ==> fresh(r.value) && r.value.Valid() && New(config) == Ok(r.value.State())
  {
    if config.capacity == 0 { return Err(EmptyCapacity); }
    if config.interactiveWeight == 0 || config.batchWeight == 0 { return Err(EmptyWeight); }
    if config.interactiveWeight + config.batchWeight > 1024 { return Err(ExcessiveWeight); }
    if config.aging <= 0 { return Err(EmptyBatchAging); }
    var queue := new FairQueue<T>(config);
    return Ok(queue);
  }
}
