/** Removing runtimes that no job owns any more, without ever removing one that is in use. */
module Reaper {
  import opened Base
  import opened Lifecycle
  import opened Store
  import opened Runs
  import opened Invariant

  datatype Resource = Resource(id: string, job: JobId, worker: WorkerId, lease: LeaseId, createdAt: Time)

  datatype Ownership = ActiveMatchingLease | JobMissing | JobTerminal | LeaseMismatch | Unknown
  {
    predicate Unsafe() {
      JobMissing? || JobTerminal? || LeaseMismatch?
    }
  }

  function OwnershipIn(db: Db, resource: Resource): Ownership {
    if resource.job !in db.jobs then JobMissing
    else
      var row := db.jobs[resource.job];
      if row.state.Terminal() then JobTerminal
      else if row.worker == Some(resource.worker) && row.lease == Some(resource.lease) then ActiveMatchingLease
      else LeaseMismatch
  }

  datatype Decision = Reap | KeepActive | KeepInGrace | KeepUnknown

  function EvaluateReap(ownership: Ownership, unsafeSince: Option<Time>, now: Time, grace: int): Decision {
    match ownership
    case ActiveMatchingLease => KeepActive
    case Unknown => KeepUnknown
    case _ =>
      if unsafeSince.None? then KeepInGrace
      else if now - unsafeSince.value < grace then KeepInGrace
      else Reap
  }

  // ----- One pass -----

  datatype ReapResult = Reaped | AlreadyAbsent | Skipped | ReapFailed

  datatype Sight = Sight(resource: Resource, firstSeen: Time)

  type Observations = map<string, Sight>

  /** What a pass meets: the time, whether the inventory succeeds and what it lists, the ownership
      each lookup establishes, and how each removal that is attempted turns out. */
  datatype Pass = Pass(
    now: Time, inventoried: bool, resources: seq<Resource>, ownership: seq<Ownership>, results: seq<ReapResult>)

  /** One answer per resource, and the engine lists each resource once. */
  ghost predicate PassOk(pass: Pass) {
    && |pass.ownership| == |pass.resources| && |pass.results| == |pass.resources|
    && forall i, k :: 0 <= i < k < |pass.resources| ==> pass.resources[i].id != pass.resources[k].id
  }

  function Observed(seen: Observations, resource: Resource, ownership: Ownership, now: Time): Observations {
    if !ownership.Unsafe() then seen - {resource.id}
    else if resource.id in seen && seen[resource.id].resource == resource then seen
    else seen[resource.id := Sight(resource, now)]
  }

  function UnsafeSince(seen: Observations, resource: Resource, ownership: Ownership): Option<Time> {
    if ownership.Unsafe() && resource.id in seen then Some(seen[resource.id].firstSeen) else None
  }

  function DecisionFor(seen: Observations, resource: Resource, ownership: Ownership, now: Time, grace: int): Decision {
    var seen' := Observed(seen, resource, ownership, now);
    EvaluateReap(ownership, UnsafeSince(seen', resource, ownership), now, grace)
  }

  predicate Gone(decision: Decision, result: ReapResult) {
    decision.Reap? && (result.Reaped? || result.AlreadyAbsent?)
  }

  /** The observations after the first `n` resources of a pass. */
  function Walk(seen: Observations, pass: Pass, grace: int, n: nat): Observations
    requires n <= |pass.resources| <= |pass.ownership| && |pass.resources| <= |pass.results|
  {
    if n == 0 then seen
    else
      var before := Walk(seen, pass, grace, n - 1);
      var resource, ownership := pass.resources[n - 1], pass.ownership[n - 1];
      var after := Observed(before, resource, ownership, pass.now);
      if Gone(DecisionFor(before, resource, ownership, pass.now, grace), pass.results[n - 1]) then after - {resource.id}
      else after
  }

  predicate Inventoried(pass: Pass, id: string) {
    exists i :: 0 <= i < |pass.resources| && pass.resources[i].id == id
  }

  function AfterPass(seen: Observations, pass: Pass, grace: int): Observations
    requires |pass.resources| <= |pass.ownership| && |pass.resources| <= |pass.results|
  {
    if !pass.inventoried then seen
    else
      var walked := Walk(seen, pass, grace, |pass.resources|);
      map id | id in walked && Inventoried(pass, id) :: walked[id]
  }

  /** What pass `i` of the loop decides about its resource. */
  function DecisionAt(seen: Observations, pass: Pass, grace: int, i: nat): Decision
    requires i < |pass.resources| <= |pass.ownership| && |pass.resources| <= |pass.results|
  {
    DecisionFor(Walk(seen, pass, grace, i), pass.resources[i], pass.ownership[i], pass.now, grace)
  }

  /** The jobs that still have a runtime after the first `n` resources. */
  function Remaining(seen: Observations, pass: Pass, grace: int, n: nat): set<JobId>
    requires n <= |pass.resources| <= |pass.ownership| && |pass.resources| <= |pass.results|
  {
    if n == 0 then {}
    else
      Remaining(seen, pass, grace, n - 1)
      + if Gone(DecisionAt(seen, pass, grace, n - 1), pass.results[n - 1]) then {} else {pass.resources[n - 1].job}
  }

  function ReapedCount(seen: Observations, pass: Pass, grace: int, n: nat): nat
    requires n <= |pass.resources| <= |pass.ownership| && |pass.resources| <= |pass.results|
  {
    if n == 0 then 0
    else
      ReapedCount(seen, pass, grace, n - 1)
      + if DecisionAt(seen, pass, grace, n - 1).Reap? && pass.results[n - 1].Reaped? then 1 else 0
  }

  /** A job is reported as still having a runtime exactly when some runtime of it was not removed;
      finalization waits for these jobs. */
  lemma {:induction false} RemainingIsExact(seen: Observations, pass: Pass, grace: int, n: nat, job: JobId)
    requires n <= |pass.resources| <= |pass.ownership| && |pass.resources| <= |pass.results|
    ensures job in Remaining(seen, pass, grace, n) <==>
      exists i :: 0 <= i < n && pass.resources[i].job == job && !Gone(DecisionAt(seen, pass, grace, i), pass.results[i])
  {
    if n > 0 { RemainingIsExact(seen, pass, grace, n - 1, job); }
  }

  class RuntimeReconciler {
    const grace: int
    var observations: Observations

    constructor (grace: int)
      ensures this.grace == grace && observations == map[]
    {
      this.grace, observations := grace, map[];
    }

    method Observe(resource: Resource, ownership: Ownership, now: Time) returns (since: Option<Time>)
      modifies this
      ensures observations == Observed(old(observations), resource, ownership, now)
      ensures since == UnsafeSince(observations, resource, ownership)
    {
      if !ownership.Unsafe() {
        observations := observations - {resource.id};
        return None;
      }
      if resource.id !in observations || observations[resource.id].resource != resource {
        observations := observations[resource.id := Sight(resource, now)];
      }
      return Some(observations[resource.id].firstSeen);
    }

    /** Returns the jobs whose runtimes remain and how many runtimes were removed. */
    method ReconcileRuntimes(pass: Pass) returns (remaining: set<JobId>, reaped: nat)
      requires |pass.ownership| == |pass.resources| == |pass.results| && pass.inventoried
      modifies this
      ensures observations == AfterPass(old(observations), pass, grace)
      ensures remaining == Remaining(old(observations), pass, grace, |pass.resources|)
      ensures reaped == ReapedCount(old(observations), pass, grace, |pass.resources|)
    {
      remaining, reaped := {}, 0;
      for n := 0 to |pass.resources|
        invariant observations == Walk(old(observations), pass, grace, n)
        invariant remaining == Remaining(old(observations), pass, grace, n)
        invariant reaped == ReapedCount(old(observations), pass, grace, n)
      {
        var resource, ownership := pass.resources[n], pass.ownership[n];
        var since := Observe(resource, ownership, pass.now);
        var decision := EvaluateReap(ownership, since, pass.now, grace);
        if Gone(decision, pass.results[n]) {
          observations := observations - {resource.id};
          if pass.results[n].Reaped? { reaped := reaped + 1; }
        } else {
          remaining := remaining + {resource.job};
        }
      }
      observations := map id | id in observations && Inventoried(pass, id) :: observations[id];
    }
  }

  /** The in-memory engine deletes a runtime only under its exact identity. */
  class MemoryReaper {
    var resources: map<string, Resource>
    var reaped: set<string>

    constructor (resources: map<string, Resource>)
      ensures this.resources == resources && reaped == {}
    {
      this.resources, reaped := resources, {};
    }

    method ReapResource(resource: Resource) returns (result: ReapResult)
      modifies this
      ensures result.Reaped? <==> resource.id in old(resources) && old(resources)[resource.id] == resource
      ensures result.AlreadyAbsent? <==> resource.id !in old(resources)
      ensures resources == if result.Reaped? then old(resources) - {resource.id} else old(resources)
      ensures reaped == if result.Reaped? then old(reaped) + {resource.id} else old(reaped)
    {
      if resource.id !in resources { return AlreadyAbsent; }
      if resources[resource.id] != resource { return ReapFailed; }
      resources := resources - {resource.id};
      reaped := reaped + {resource.id};
      return Reaped;
    }
  }

  // ----- Across passes -----

  /** The pass listed exactly this resource and found it without an owner. */
  ghost predicate SawUnsafe(pass: Pass, resource: Resource) {
    exists i :: 0 <= i < |pass.resources| && i < |pass.ownership|
      && pass.resources[i] == resource && pass.ownership[i].Unsafe()
  }

  ghost predicate PassesOk(passes: seq<Pass>) {
    forall i :: 0 <= i < |passes| ==> PassOk(passes[i])
  }

  /** The observations before pass `n`. */
  ghost function Before(passes: seq<Pass>, grace: int, n: nat): Observations
    requires PassesOk(passes) && n <= |passes|
  {
    if n == 0 then map[]
    else
      assert PassOk(passes[n - 1]);
      AfterPass(Before(passes, grace, n - 1), passes[n - 1], grace)
  }

  /** The resource was first seen unowned in pass `m`, at time `since`, and in every pass with an
      inventory from then up to pass `n`. */
  ghost predicate UnsafeFrom(passes: seq<Pass>, resource: Resource, since: Time, m: nat, n: nat) {
    && m < n <= |passes| && passes[m].inventoried && passes[m].now == since
    && forall k {:trigger passes[k]} :: m <= k < n && passes[k].inventoried ==> SawUnsafe(passes[k], resource)
  }

  ghost predicate Honest(passes: seq<Pass>, sight: Sight, n: nat) {
    exists m :: UnsafeFrom(passes, sight.resource, sight.firstSeen, m, n)
  }

  /** Resources with other ids do not disturb an observation. */
  lemma {:induction false} WalkSkips(seen: Observations, pass: Pass, grace: int, n: nat, id: string)
    requires PassOk(pass) && n <= |pass.resources|
    requires forall i :: 0 <= i < n ==> pass.resources[i].id != id
    ensures id in Walk(seen, pass, grace, n) <==> id in seen
    ensures id in seen ==> Walk(seen, pass, grace, n)[id] == seen[id]
  {
    if n > 0 { WalkSkips(seen, pass, grace, n - 1, id); }
  }

  /** What a walk leaves under an id: an old observation of the same resource, or a new one of a
      resource this pass found unowned. */
  lemma {:induction false} WalkLeaves(seen: Observations, pass: Pass, grace: int, n: nat, id: string)
    requires PassOk(pass) && n <= |pass.resources| && id in Walk(seen, pass, grace, n)
    requires exists i :: 0 <= i < n && pass.resources[i].id == id
    ensures var sight := Walk(seen, pass, grace, n)[id];
      SawUnsafe(pass, sight.resource) && sight.resource.id == id
      && (sight.firstSeen == pass.now || (id in seen && seen[id] == sight))
  {
    var resource := pass.resources[n - 1];
    if resource.id != id {
      WalkLeaves(seen, pass, grace, n - 1, id);
    } else {
      forall i | 0 <= i < n - 1 ensures pass.resources[i].id != id { assert pass.resources[i].id != pass.resources[n - 1].id; }
      WalkSkips(seen, pass, grace, n - 1, id);
      assert pass.resources[n - 1] == resource && pass.ownership[n - 1].Unsafe();
    }
  }

  lemma UnsafeFromExtends(passes: seq<Pass>, resource: Resource, since: Time, m: nat, n: nat)
    requires UnsafeFrom(passes, resource, since, m, n) && n < |passes|
    requires passes[n].inventoried ==> SawUnsafe(passes[n], resource)
    ensures UnsafeFrom(passes, resource, since, m, n + 1)
  {}

  lemma HonestyExtends(passes: seq<Pass>, sight: Sight, n: nat)
    requires Honest(passes, sight, n) && n < |passes| && (passes[n].inventoried ==> SawUnsafe(passes[n], sight.resource))
    ensures Honest(passes, sight, n + 1)
  {
    var m :| UnsafeFrom(passes, sight.resource, sight.firstSeen, m, n);
    UnsafeFromExtends(passes, sight.resource, sight.firstSeen, m, n);
  }

  lemma {:induction false} ObservationsAreHonest(passes: seq<Pass>, grace: int, n: nat, id: string)
    requires PassesOk(passes) && n <= |passes| && id in Before(passes, grace, n)
    ensures Honest(passes, Before(passes, grace, n)[id], n) && Before(passes, grace, n)[id].resource.id == id
  {
    if n > 0 {
      var pass, seen, sight := passes[n - 1], Before(passes, grace, n - 1), Before(passes, grace, n)[id];
      if pass.inventoried { WalkLeaves(seen, pass, grace, |pass.resources|, id); }
      if id in seen && seen[id] == sight {
        ObservationsAreHonest(passes, grace, n - 1, id);
        HonestyExtends(passes, sight, n - 1);
      } else {
        assert UnsafeFrom(passes, sight.resource, sight.firstSeen, n - 1, n);
      }
    }
  }

  /** Reaping is safe across passes: a runtime is removed only if some pass at least the grace
      period ago, and every pass with an inventory since, saw the very same runtime unowned. */
  lemma ReapNeedsGrace(passes: seq<Pass>, grace: int, n: nat, i: nat)
    requires PassesOk(passes) && n < |passes| && passes[n].inventoried && i < |passes[n].resources| && PassOk(passes[n])
    requires DecisionAt(Before(passes, grace, n), passes[n], grace, i) == Reap
    ensures exists m: nat ::
      m <= n && passes[m].now + grace <= passes[n].now
      && UnsafeFrom(passes, passes[n].resources[i], passes[m].now, m, n + 1)
  {
    var pass, seen := passes[n], Before(passes, grace, n);
    var resource := pass.resources[i];
    var walked := Walk(seen, pass, grace, i);
    forall k | 0 <= k < i ensures pass.resources[k].id != resource.id { assert pass.resources[k].id != pass.resources[i].id; }
    WalkSkips(seen, pass, grace, i, resource.id);
    assert pass.ownership[i].Unsafe();
    assert SawUnsafe(pass, resource);
    var sight := Observed(walked, resource, pass.ownership[i], pass.now)[resource.id];
    if resource.id in seen && seen[resource.id] == sight {
      ObservationsAreHonest(passes, grace, n, resource.id);
      HonestyExtends(passes, sight, n);
      var m :| UnsafeFrom(passes, sight.resource, sight.firstSeen, m, n + 1);
    } else {
      assert UnsafeFrom(passes, resource, pass.now, n, n + 1);
    }
  }

  /** An unowned runtime that was not removed is still observed, since its first sighting. */
  lemma {:induction false} WalkKeeps(seen: Observations, pass: Pass, grace: int, n: nat, i: nat)
    requires PassOk(pass) && i < n <= |pass.resources| && pass.ownership[i].Unsafe()
    requires !Gone(DecisionAt(seen, pass, grace, i), pass.results[i])
    ensures var resource := pass.resources[i];
      && resource.id in Walk(seen, pass, grace, n)
      && Walk(seen, pass, grace, n)[resource.id] ==
           if resource.id in seen && seen[resource.id].resource == resource then seen[resource.id]
           else Sight(resource, pass.now)
  {
    var resource := pass.resources[i];
    if i < n - 1 {
      WalkKeeps(seen, pass, grace, n - 1, i);
      assert pass.resources[n - 1].id != resource.id;
    } else {
      forall k | 0 <= k < i ensures pass.resources[k].id != resource.id { assert pass.resources[k].id != pass.resources[i].id; }
      WalkSkips(seen, pass, grace, i, resource.id);
    }
  }

  /** The runtime is listed and unowned in every pass of the range, and not removed before the last. */
  ghost predicate Lingers(passes: seq<Pass>, grace: int, resource: Resource, m: nat, n: nat)
    requires PassesOk(passes) && m <= n <= |passes|
    decreases n
  {
    m < n ==>
      Lingers(passes, grace, resource, m, n - 1) && LingersIn(passes, grace, resource, n - 1)
  }

  ghost predicate LingersIn(passes: seq<Pass>, grace: int, resource: Resource, k: nat)
    requires PassesOk(passes) && k < |passes|
  {
    passes[k].inventoried && exists i :: LingersAt(passes, grace, resource, k, i)
  }

  ghost predicate LingersAt(passes: seq<Pass>, grace: int, resource: Resource, k: nat, i: nat)
    requires PassesOk(passes) && k < |passes|
  {
    && PassOk(passes[k]) && i < |passes[k].resources| && passes[k].resources[i] == resource
    && passes[k].ownership[i].Unsafe()
    && !Gone(DecisionAt(Before(passes, grace, k), passes[k], grace, i), passes[k].results[i])
  }

  /** No earlier pass has a later time. */
  ghost predicate InOrder(passes: seq<Pass>, m: nat)
    requires m < |passes|
  {
    forall i :: 0 <= i < m ==> passes[i].now <= passes[m].now
  }

  /** Kept since pass `m` or earlier. */
  ghost predicate SeenSince(passes: seq<Pass>, grace: int, resource: Resource, m: nat, n: nat)
    requires PassesOk(passes) && m < n <= |passes|
  {
    && resource.id in Before(passes, grace, n) && Before(passes, grace, n)[resource.id].resource == resource
    && Before(passes, grace, n)[resource.id].firstSeen <= passes[m].now
  }

  lemma LingeringIsSeen(passes: seq<Pass>, grace: int, resource: Resource, m: nat, n: nat)
    requires PassesOk(passes) && m <= n < |passes| && InOrder(passes, m) && LingersIn(passes, grace, resource, n)
    requires m < n ==> SeenSince(passes, grace, resource, m, n)
    ensures SeenSince(passes, grace, resource, m, n + 1)
  {
    var i :| LingersAt(passes, grace, resource, n, i);
    var seen, pass := Before(passes, grace, n), passes[n];
    WalkKeeps(seen, pass, grace, |pass.resources|, i);
    assert Inventoried(pass, resource.id);
    if m == n && resource.id in seen && seen[resource.id].resource == resource {
      ObservationsAreHonest(passes, grace, n, resource.id);
      var first :| UnsafeFrom(passes, resource, seen[resource.id].firstSeen, first, n);
    }
  }

  lemma {:induction false} LingeringIsRemembered(passes: seq<Pass>, grace: int, resource: Resource, m: nat, n: nat)
    requires PassesOk(passes) && m < n <= |passes| && InOrder(passes, m) && Lingers(passes, grace, resource, m, n)
    ensures SeenSince(passes, grace, resource, m, n)
    decreases n
  {
    if m < n - 1 { LingeringIsRemembered(passes, grace, resource, m, n - 1); }
    LingeringIsSeen(passes, grace, resource, m, n - 1);
  }

  /** Orphans do go: a runtime that has lingered unowned through the grace period is reaped in the
      next pass that finds it so. */
  lemma OrphansAreReaped(passes: seq<Pass>, grace: int, m: nat, n: nat, i: nat)
    requires PassesOk(passes) && m < n < |passes| && InOrder(passes, m) && PassOk(passes[n])
    requires i < |passes[n].resources| && passes[n].ownership[i].Unsafe()
    requires Lingers(passes, grace, passes[n].resources[i], m, n) && passes[m].now + grace <= passes[n].now
    ensures DecisionAt(Before(passes, grace, n), passes[n], grace, i) == Reap
  {
    var pass, resource := passes[n], passes[n].resources[i];
    LingeringIsRemembered(passes, grace, resource, m, n);
    forall k | 0 <= k < i ensures pass.resources[k].id != resource.id { assert pass.resources[k].id != pass.resources[i].id; }
    WalkSkips(Before(passes, grace, n), pass, grace, i, resource.id);
  }

  // ----- Against the database -----

  lemma RowKeepsUnowned(w: World, step: Step, resource: Resource)
    requires SeenOk(w) && Enabled(w, step) && resource.lease in w.issued && resource.job in w.db.jobs
    requires RowOk(w.db.jobs[resource.job], w.maxAttempts) && OwnershipIn(w.db, resource).Unsafe()
    ensures OwnershipIn(After(w, step).db, resource).Unsafe()
  {
    LeaseOrigin(w, step, resource.job);
  }

  lemma NewRowIsUnowned(w: World, step: Step, resource: Resource)
    requires Enabled(w, step) && resource.job !in w.db.jobs
    ensures OwnershipIn(After(w, step).db, resource).Unsafe()
  {
    StepKeys(w, step);
  }

  lemma StepKeepsUnowned(w: World, step: Step, resource: Resource)
    requires WorldOk(w) && Enabled(w, step) && resource.lease in w.issued
    requires OwnershipIn(w.db, resource).Unsafe()
    ensures OwnershipIn(After(w, step).db, resource).Unsafe() && resource.lease in After(w, step).issued
  {
    StepKeepsIssued(w, step);
    if resource.job in w.db.jobs {
      assert RowOk(w.db.jobs[resource.job], w.maxAttempts);
      RowKeepsUnowned(w, step, resource);
    } else {
      NewRowIsUnowned(w, step, resource);
    }
  }

  /** The job's row, if it has one, is not under this worker and lease, or the job has ended. */
  predicate Unowned(db: Db, resource: Resource) {
    resource.job in db.jobs ==>
      || db.jobs[resource.job].state.Terminal()
      || db.jobs[resource.job].worker != Some(resource.worker)
      || db.jobs[resource.job].lease != Some(resource.lease)
  }

  /** The lookup tells the two apart: a runtime is in use exactly when a running job's row is under
      its worker and lease. */
  lemma LookupIsExact(db: Db, resource: Resource)
    ensures OwnershipIn(db, resource).Unsafe() <==> Unowned(db, resource)
    ensures OwnershipIn(db, resource) == ActiveMatchingLease <==> !Unowned(db, resource)
  {}

  /** A runtime in use is protected: a pass that looks at such a row keeps the runtime, at any age,
      and forgets whatever it had observed about it. */
  lemma OwnedIsKept(seen: Observations, pass: Pass, grace: int, i: nat, db: Db)
    requires PassOk(pass) && i < |pass.resources| && pass.ownership[i] == OwnershipIn(db, pass.resources[i])
    requires !Unowned(db, pass.resources[i])
    ensures DecisionAt(seen, pass, grace, i) == KeepActive
    ensures pass.inventoried ==> pass.resources[i].id !in AfterPass(seen, pass, grace)
  {
    LookupIsExact(db, pass.resources[i]);
    WalkForgets(seen, pass, grace, |pass.resources|, i);
  }

  lemma {:induction false} WalkForgets(seen: Observations, pass: Pass, grace: int, n: nat, i: nat)
    requires PassOk(pass) && i < n <= |pass.resources| && !pass.ownership[i].Unsafe()
    ensures pass.resources[i].id !in Walk(seen, pass, grace, n)
  {
    if i < n - 1 {
      WalkForgets(seen, pass, grace, n - 1, i);
      assert pass.resources[n - 1].id != pass.resources[i].id;
    }
  }

  /** A runtime of a generated lease that was once found unowned is unowned for good, so what is
      deleted later cannot have become the runtime of an active lease in the meantime. */
  lemma {:induction false} UnownedStaysUnowned(worlds: seq<World>, steps: seq<Step>, i: nat, k: nat, resource: Resource)
    requires Run(worlds, steps) && i <= k <= |steps| && resource.lease in worlds[i].issued
    requires OwnershipIn(worlds[i].db, resource).Unsafe()
    ensures OwnershipIn(worlds[k].db, resource).Unsafe() && resource.lease in worlds[k].issued
    ensures Unowned(worlds[k].db, resource)
    decreases k
  {
    LookupIsExact(worlds[k].db, resource);
    if i < k {
      UnownedStaysUnowned(worlds, steps, i, k - 1, resource);
      RunsAreOk(worlds, steps, k - 1);
      assert Enabled(worlds[k - 1], steps[k - 1]) && worlds[k] == After(worlds[k - 1], steps[k - 1]);
      StepKeepsUnowned(worlds[k - 1], steps[k - 1], resource);
    }
  }

  /** Together: a removal that a pass decides on, from a lookup at moment `t` of a run, is of a
      runtime that no job owns at any later moment `k`, when the engine carries it out. */
  lemma ReapIsSafe(worlds: seq<World>, steps: seq<Step>, seen: Observations, pass: Pass, grace: int, i: nat, t: nat, k: nat)
    requires Run(worlds, steps) && t <= k <= |steps| && PassOk(pass) && i < |pass.resources|
    requires pass.ownership[i].Unknown? || pass.ownership[i] == OwnershipIn(worlds[t].db, pass.resources[i])
    requires pass.resources[i].lease in worlds[t].issued
    requires DecisionAt(seen, pass, grace, i) == Reap
    ensures Unowned(worlds[k].db, pass.resources[i])
  {
    UnownedStaysUnowned(worlds, steps, t, k, pass.resources[i]);
  }
}
