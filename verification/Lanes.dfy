/** One priority lane of the fairness buffer: a ring of projects, each with a bucket of entries
    kept in (created_at, job_id) order. */
module Lanes {
  import opened Base

  datatype Lane = Interactive | Batch

  datatype Entry<T> = Entry(
    job: JobId, project: ProjectId, lane: Lane, createdAt: Time, enqueuedAt: Time, payload: T)

  // ----- Order -----

  /** Identifiers compare character by character. */
  predicate Less(a: string, b: string) {
    b != [] && (a == [] || a[0] < b[0] || (a[0] == b[0] && Less(a[1..], b[1..])))
  }

  lemma {:induction false} LessIsTransitive(a: string, b: string, c: string)
    requires Less(a, b) && Less(b, c)
    ensures Less(a, c)
  {
    if a != [] && a[0] == b[0] && b[0] == c[0] {
      LessIsTransitive(a[1..], b[1..], c[1..]);
    }
  }

  lemma {:induction false} LessIsTotal(a: string, b: string)
    ensures Less(a, b) || Less(b, a) || a == b
    ensures !(Less(a, b) && Less(b, a))
    ensures Less(a, b) ==> a != b
  {
    if a != [] && b != [] {
      LessIsTotal(a[1..], b[1..]);
      if a[0] == b[0] && a[1..] == b[1..] {
        assert a == [a[0]] + a[1..] && b == [b[0]] + b[1..];
      }
    }
  }

  predicate Precedes<T>(a: Entry<T>, b: Entry<T>) {
    a.createdAt < b.createdAt || (a.createdAt == b.createdAt && Less(a.job, b.job))
  }

  lemma PrecedesIsTransitive<T>(a: Entry<T>, b: Entry<T>, c: Entry<T>)
    requires Precedes(a, b) && Precedes(b, c)
    ensures Precedes(a, c)
  {
    if Less(a.job, b.job) && Less(b.job, c.job) { LessIsTransitive(a.job, b.job, c.job); }
  }

  lemma PrecedesIsTotal<T>(a: Entry<T>, b: Entry<T>)
    ensures a.job != b.job ==> Precedes(a, b) || Precedes(b, a)
    ensures !(Precedes(a, b) && Precedes(b, a))
    ensures Precedes(a, b) ==> a != b
  {
    LessIsTotal(a.job, b.job);
  }

  ghost predicate Sorted<T>(bucket: seq<Entry<T>>) {
    forall i, k :: 0 <= i < k < |bucket| ==> Precedes(bucket[i], bucket[k])
  }

  /** Where a sorted bucket takes a new entry. */
  function InsertionPoint<T>(bucket: seq<Entry<T>>, entry: Entry<T>): (position: nat)
    ensures position <= |bucket|
    ensures forall i :: 0 <= i < position ==> Precedes(bucket[i], entry)
    ensures position < |bucket| ==> !Precedes(bucket[position], entry)
  {
    if bucket == [] || !Precedes(bucket[0], entry) then 0 else 1 + InsertionPoint(bucket[1..], entry)
  }

  function Inserted<T>(bucket: seq<Entry<T>>, entry: Entry<T>): seq<Entry<T>> {
    var position := InsertionPoint(bucket, entry);
    bucket[..position] + [entry] + bucket[position..]
  }

  predicate HasJob<T>(bucket: seq<Entry<T>>, job: JobId) {
    exists i :: 0 <= i < |bucket| && bucket[i].job == job
  }

  lemma LaterEntriesFollow<T>(bucket: seq<Entry<T>>, entry: Entry<T>, i: nat)
    requires Sorted(bucket) && !HasJob(bucket, entry.job) && InsertionPoint(bucket, entry) <= i < |bucket|
    ensures Precedes(entry, bucket[i])
  {
    var position := InsertionPoint(bucket, entry);
    PrecedesIsTotal(bucket[position], entry);
    if position < i { PrecedesIsTransitive(entry, bucket[position], bucket[i]); }
  }

  lemma SplicedIsSorted<T>(bucket: seq<Entry<T>>, position: nat, entry: Entry<T>)
    requires Sorted(bucket) && position <= |bucket|
    requires forall i :: 0 <= i < position ==> Precedes(bucket[i], entry)
    requires forall i :: position <= i < |bucket| ==> Precedes(entry, bucket[i])
    ensures Sorted(bucket[..position] + [entry] + bucket[position..])
  {
    var result := bucket[..position] + [entry] + bucket[position..];
    forall i, k | 0 <= i < k < |result| ensures Precedes(result[i], result[k]) {
      var i0 := if i < position then i else i - 1;
      var k0 := if k < position then k else k - 1;
      assert i != position ==> result[i] == bucket[i0];
      assert k != position ==> result[k] == bucket[k0];
    }
  }

  lemma SplicedMembers<T>(bucket: seq<Entry<T>>, position: nat, entry: Entry<T>, e: Entry<T>)
    requires position <= |bucket|
    ensures e in bucket[..position] + [entry] + bucket[position..] <==> e in bucket || e == entry
  {
    assert bucket == bucket[..position] + bucket[position..];
  }

  lemma InsertedIsSorted<T>(bucket: seq<Entry<T>>, entry: Entry<T>)
    requires Sorted(bucket) && !HasJob(bucket, entry.job)
    ensures Sorted(Inserted(bucket, entry))
    ensures forall e :: e in Inserted(bucket, entry) <==> e in bucket || e == entry
  {
    var position := InsertionPoint(bucket, entry);
    forall i | position <= i < |bucket| ensures Precedes(entry, bucket[i]) {
      LaterEntriesFollow(bucket, entry, i);
    }
    SplicedIsSorted(bucket, position, entry);
    forall e ensures e in Inserted(bucket, entry) <==> e in bucket || e == entry {
      SplicedMembers(bucket, position, entry, e);
    }
  }

  // ----- State -----

  datatype LaneState<T> = LaneState(buckets: map<ProjectId, seq<Entry<T>>>, ring: seq<ProjectId>, len: nat)

  function EmptyLane<T>(): LaneState<T> {
    LaneState(map[], [], 0)
  }

  ghost function Entries<T>(l: LaneState<T>): set<Entry<T>> {
    set p, e | p in l.buckets && e in l.buckets[p] :: e
  }

  lemma Enters<T>(l: LaneState<T>, p: ProjectId, e: Entry<T>)
    requires p in l.buckets && e in l.buckets[p]
    ensures e in Entries(l)
  {}

  /** An entry of a lane is in the bucket of its project, and nowhere else. */
  lemma FiledIn<T>(l: LaneState<T>, e: Entry<T>)
    requires Filed(l)
    ensures e in Entries(l) <==> e.project in l.buckets && e in l.buckets[e.project]
  {}

  ghost function Jobs<T>(l: LaneState<T>): set<JobId> {
    set e | e in Entries(l) :: e.job
  }

  ghost predicate NoDuplicates<A>(s: seq<A>) {
    forall i, k :: 0 <= i < k < |s| ==> s[i] != s[k]
  }

  /** Ring and buckets name the same projects, and buckets are non-empty and sorted. */
  ghost predicate Synchronized<T>(l: LaneState<T>) {
    && NoDuplicates(l.ring)
    && (forall p :: p in l.ring <==> p in l.buckets)
    && (forall p :: p in l.buckets ==> l.buckets[p] != [] && Sorted(l.buckets[p]))
  }

  ghost predicate Filed<T>(l: LaneState<T>) {
    forall p, e :: p in l.buckets && e in l.buckets[p] ==> e.project == p
  }

  ghost predicate JobsDistinct<T>(l: LaneState<T>) {
    forall e, f :: e in Entries(l) && f in Entries(l) && e.job == f.job ==> e == f
  }

  ghost predicate LaneOk<T>(l: LaneState<T>) {
    Synchronized(l) && Filed(l) && JobsDistinct(l) && l.len == |Entries(l)|
  }

  lemma EmptyLaneIsOk<T>()
    ensures LaneOk(EmptyLane<T>()) && Entries(EmptyLane<T>()) == {}
  {}

  /** In a synchronized lane, emptiness shows in the ring, in the entries and in the count alike. */
  lemma EmptinessAgrees<T>(l: LaneState<T>)
    requires LaneOk(l)
    ensures l.ring == [] <==> Entries(l) == {}
    ensures l.len == 0 <==> Entries(l) == {}
  {
    if l.ring != [] {
      assert l.ring[0] in l.ring;
      Enters(l, l.ring[0], l.buckets[l.ring[0]][0]);
    }
    if e :| e in Entries(l) {
      assert l.ring != [];
    }
  }

  // ----- Push -----

  function Bucket<T>(l: LaneState<T>, p: ProjectId): seq<Entry<T>> {
    if p in l.buckets then l.buckets[p] else []
  }

  function LanePush<T>(l: LaneState<T>, entry: Entry<T>): LaneState<T> {
    LaneState(l.buckets[entry.project := Inserted(Bucket(l, entry.project), entry)],
              if entry.project in l.buckets then l.ring else l.ring + [entry.project],
              l.len + 1)
  }

  ghost predicate Holds<T>(l: LaneState<T>, job: JobId) {
    job in Jobs(l)
  }

  lemma JobsAfterAdding<T>(l: LaneState<T>, l': LaneState<T>, x: Entry<T>)
    requires Entries(l') == Entries(l) + {x}
    ensures Jobs(l') == Jobs(l) + {x.job}
  {}

  lemma JobsAfterTaking<T>(l: LaneState<T>, l': LaneState<T>, x: Entry<T>)
    requires JobsDistinct(l) && x in Entries(l) && Entries(l') == Entries(l) - {x}
    ensures Jobs(l') == Jobs(l) - {x.job} && x.job in Jobs(l)
  {
    forall job ensures job in Jobs(l') <==> job in Jobs(l) - {x.job} {
      if job in Jobs(l) && job != x.job {
        var e :| e in Entries(l) && e.job == job;
        assert e in Entries(l');
      }
    }
  }

  lemma JobsAfterTouching<T>(l: LaneState<T>, l': LaneState<T>, x: Entry<T>, y: Entry<T>)
    requires JobsDistinct(l) && x in Entries(l) && x.job == y.job && Entries(l') == Entries(l) - {x} + {y}
    ensures Jobs(l') == Jobs(l)
  {
    forall job ensures job in Jobs(l') <==> job in Jobs(l) {
      if job in Jobs(l) {
        var e :| e in Entries(l) && e.job == job;
        assert (if e == x then y else e) in Entries(l');
      }
    }
  }

  lemma PushSynchronizes<T>(l: LaneState<T>, entry: Entry<T>)
    requires Synchronized(l) && Filed(l) && !Holds(l, entry.job)
    ensures Synchronized(LanePush(l, entry))
    ensures forall e :: e in Inserted(Bucket(l, entry.project), entry) <==> e in Bucket(l, entry.project) || e == entry
  {
    var bucket := Bucket(l, entry.project);
    assert !HasJob(bucket, entry.job) by {
      if HasJob(bucket, entry.job) {
        var i :| 0 <= i < |bucket| && bucket[i].job == entry.job;
        Enters(l, entry.project, bucket[i]);
      }
    }
    InsertedIsSorted(bucket, entry);
  }

  lemma PushFiles<T>(l: LaneState<T>, entry: Entry<T>)
    requires Synchronized(l) && Filed(l) && !Holds(l, entry.job)
    ensures Filed(LanePush(l, entry)) && Entries(LanePush(l, entry)) == Entries(l) + {entry}
  {
    PushSynchronizes(l, entry);
    var l' := LanePush(l, entry);
    assert Filed(l');
    forall e ensures e in Entries(l') <==> e in Entries(l) + {entry} {
      FiledIn(l, e);
      FiledIn(l', e);
    }
  }

  lemma PushOk<T>(l: LaneState<T>, entry: Entry<T>)
    requires LaneOk(l) && !Holds(l, entry.job)
    ensures LaneOk(LanePush(l, entry))
    ensures Entries(LanePush(l, entry)) == Entries(l) + {entry} && entry !in Entries(l)
    ensures Jobs(LanePush(l, entry)) == Jobs(l) + {entry.job}
  {
    PushSynchronizes(l, entry);
    PushFiles(l, entry);
    JobsAfterAdding(l, LanePush(l, entry), entry);
  }

  // ----- Pop -----

  predicate Poppable<T>(l: LaneState<T>) {
    l.ring != [] ==> l.ring[0] in l.buckets && l.buckets[l.ring[0]] != [] && l.len > 0
  }

  function LanePop<T>(l: LaneState<T>): (LaneState<T>, Option<Entry<T>>)
    requires Poppable(l)
  {
    if l.ring == [] then (l, None)
    else
      var p := l.ring[0];
      var bucket := l.buckets[p];
      (if |bucket| > 1 then LaneState(l.buckets[p := bucket[1..]], l.ring[1..] + [p], l.len - 1)
       else LaneState(l.buckets - {p}, l.ring[1..], l.len - 1),
       Some(bucket[0]))
  }

  /** The lookup that the source expects to succeed does succeed. */
  lemma PopIsSafe<T>(l: LaneState<T>)
    requires LaneOk(l)
    ensures Poppable(l)
  {
    EmptinessAgrees(l);
    if l.ring != [] { assert l.ring[0] in l.ring; }
  }

  ghost predicate CanPop<T>(l: LaneState<T>) {
    LaneOk(l) && l.ring != [] && Poppable(l)
  }

  lemma HeadIsUnique<T>(bucket: seq<Entry<T>>, e: Entry<T>)
    requires Sorted(bucket) && bucket != []
    ensures e in bucket[1..] <==> e in bucket && e != bucket[0]
  {
    RestIsOthers(bucket, 0, e);
    assert bucket[..0] + bucket[1..] == bucket[1..];
  }

  lemma PopSynchronizes<T>(l: LaneState<T>)
    requires CanPop(l)
    ensures Synchronized(LanePop(l).0)
  {
    var p := l.ring[0];
    var l' := LanePop(l).0;
    forall q ensures q in l'.ring <==> q in l'.buckets {
      assert l.ring == [p] + l.ring[1..];
      assert q in l.ring <==> q in l.buckets;
    }
  }

  lemma PopFiles<T>(l: LaneState<T>)
    requires CanPop(l)
    ensures Filed(LanePop(l).0) && Entries(LanePop(l).0) == Entries(l) - {l.buckets[l.ring[0]][0]}
  {
    var p := l.ring[0];
    var l' := LanePop(l).0;
    forall e ensures e in Bucket(l', p) <==> e in l.buckets[p] && e != l.buckets[p][0] {
      HeadIsUnique(l.buckets[p], e);
    }
    assert Filed(l');
    forall e ensures e in Entries(l') <==> e in Entries(l) - {l.buckets[p][0]} {
      FiledIn(l, e);
      FiledIn(l', e);
    }
  }

  lemma PopOk<T>(l: LaneState<T>)
    requires CanPop(l)
    ensures LaneOk(LanePop(l).0) && LanePop(l).1.Some?
    ensures var entry := LanePop(l).1.value;
      && entry in Entries(l) && entry.project == l.ring[0] && Entries(LanePop(l).0) == Entries(l) - {entry}
      && Jobs(LanePop(l).0) == Jobs(l) - {entry.job} && entry.job in Jobs(l)
  {
    PopSynchronizes(l);
    PopFiles(l);
    Enters(l, l.ring[0], l.buckets[l.ring[0]][0]);
    JobsAfterTaking(l, LanePop(l).0, l.buckets[l.ring[0]][0]);
  }

  /** A project is served in order: the popped entry precedes all its project still holds. */
  lemma PopYieldsLeast<T>(l: LaneState<T>, e: Entry<T>)
    requires CanPop(l) && e in Entries(l) && e.project == l.ring[0]
    ensures LanePop(l).1 == Some(e) || Precedes(LanePop(l).1.value, e)
  {
    var bucket := l.buckets[l.ring[0]];
    assert e in bucket;
    var i :| 0 <= i < |bucket| && bucket[i] == e;
  }

  // ----- Remove and payload updates -----

  function IndexOf<T>(bucket: seq<Entry<T>>, job: JobId): (i: nat)
    ensures i <= |bucket|
    ensures i < |bucket| ==> bucket[i].job == job
    ensures forall k :: 0 <= k < i ==> bucket[k].job != job
  {
    if bucket == [] || bucket[0].job == job then 0 else 1 + IndexOf(bucket[1..], job)
  }

  function Without(ring: seq<ProjectId>, p: ProjectId): seq<ProjectId> {
    if ring == [] then []
    else if ring[0] == p then Without(ring[1..], p)
    else [ring[0]] + Without(ring[1..], p)
  }

  /** The project whose bucket holds a job. */
  ghost predicate InBucket<T>(l: LaneState<T>, p: ProjectId, job: JobId) {
    p in l.buckets && HasJob(l.buckets[p], job)
  }

  function Removed<T>(l: LaneState<T>, p: ProjectId, job: JobId): (LaneState<T>, Option<Entry<T>>)
    requires p in l.buckets && IndexOf(l.buckets[p], job) < |l.buckets[p]| && l.len > 0
  {
    var bucket := l.buckets[p];
    var i := IndexOf(bucket, job);
    var rest := bucket[..i] + bucket[i + 1..];
    (if rest == [] then LaneState(l.buckets - {p}, Without(l.ring, p), l.len - 1)
     else LaneState(l.buckets[p := rest], l.ring, l.len - 1),
     Some(bucket[i]))
  }

  lemma {:induction false} WithoutDrops(ring: seq<ProjectId>, p: ProjectId)
    ensures forall q :: q in Without(ring, p) <==> q in ring && q != p
    ensures |Without(ring, p)| <= |ring|
  {
    if ring != [] {
      WithoutDrops(ring[1..], p);
      assert ring == [ring[0]] + ring[1..];
    }
  }

  lemma {:induction false} WithoutKeepsDistinct(ring: seq<ProjectId>, p: ProjectId)
    requires NoDuplicates(ring)
    ensures NoDuplicates(Without(ring, p))
  {
    if ring != [] {
      assert NoDuplicates(ring[1..]) by {
        forall i, k | 0 <= i < k < |ring[1..]| ensures ring[1..][i] != ring[1..][k] {
          assert ring[i + 1] != ring[k + 1];
        }
      }
      WithoutKeepsDistinct(ring[1..], p);
      WithoutDrops(ring[1..], p);
      assert forall k :: 0 <= k < |ring[1..]| ==> ring[1..][k] == ring[k + 1] != ring[0];
      assert forall k :: 0 <= k < |Without(ring[1..], p)| ==> Without(ring[1..], p)[k] in Without(ring[1..], p);
    }
  }

  lemma RemovedOk<T>(l: LaneState<T>, p: ProjectId, job: JobId)
    requires LaneOk(l) && p in l.buckets && IndexOf(l.buckets[p], job) < |l.buckets[p]| && l.len > 0
    ensures LaneOk(Removed(l, p, job).0)
    ensures var entry := l.buckets[p][IndexOf(l.buckets[p], job)];
      && entry in Entries(l) && entry.job == job && Entries(Removed(l, p, job).0) == Entries(l) - {entry}
      && Jobs(Removed(l, p, job).0) == Jobs(l) - {job} && job in Jobs(l)
  {
    RemovedSynchronizes(l, p, job);
    RemovedFiles(l, p, job);
    Enters(l, p, l.buckets[p][IndexOf(l.buckets[p], job)]);
    JobsAfterTaking(l, Removed(l, p, job).0, l.buckets[p][IndexOf(l.buckets[p], job)]);
  }

  lemma RemovedSynchronizes<T>(l: LaneState<T>, p: ProjectId, job: JobId)
    requires Synchronized(l) && p in l.buckets && IndexOf(l.buckets[p], job) < |l.buckets[p]| && l.len > 0
    ensures Synchronized(Removed(l, p, job).0)
  {
    WithoutDrops(l.ring, p);
    WithoutKeepsDistinct(l.ring, p);
  }

  lemma RemovedFiles<T>(l: LaneState<T>, p: ProjectId, job: JobId)
    requires Synchronized(l) && Filed(l)
    requires p in l.buckets && IndexOf(l.buckets[p], job) < |l.buckets[p]| && l.len > 0
    ensures Filed(Removed(l, p, job).0)
    ensures Entries(Removed(l, p, job).0) == Entries(l) - {l.buckets[p][IndexOf(l.buckets[p], job)]}
  {
    var i := IndexOf(l.buckets[p], job);
    var entry := l.buckets[p][i];
    var l' := Removed(l, p, job).0;
    forall e ensures e in Bucket(l', p) <==> e in l.buckets[p] && e != entry {
      RestIsOthers(l.buckets[p], i, e);
    }
    assert Filed(l');
    forall e ensures e in Entries(l') <==> e in Entries(l) - {entry} {
      FiledIn(l, e);
      FiledIn(l', e);
    }
  }

  lemma RestIsOthers<T>(bucket: seq<Entry<T>>, i: nat, e: Entry<T>)
    requires Sorted(bucket) && i < |bucket|
    ensures e in bucket[..i] + bucket[i + 1..] <==> e in bucket && e != bucket[i]
  {
    var rest := bucket[..i] + bucket[i + 1..];
    if e in bucket && e != bucket[i] {
      var k :| 0 <= k < |bucket| && bucket[k] == e;
      assert rest[if k < i then k else k - 1] == e;
    }
    if e in rest {
      var k :| 0 <= k < |rest| && rest[k] == e;
      var at := if k < i then k else k + 1;
      assert bucket[at] == e;
      if at < i { PrecedesIsTotal(bucket[at], bucket[i]); } else { PrecedesIsTotal(bucket[i], bucket[at]); }
    }
  }

  function Touched<T>(l: LaneState<T>, p: ProjectId, job: JobId, payload: T): LaneState<T>
    requires p in l.buckets && IndexOf(l.buckets[p], job) < |l.buckets[p]|
  {
    var i := IndexOf(l.buckets[p], job);
    l.(buckets := l.buckets[p := l.buckets[p][i := l.buckets[p][i].(payload := payload)]])
  }

  lemma TouchedBucket<T>(bucket: seq<Entry<T>>, i: nat, payload: T)
    requires Sorted(bucket) && i < |bucket|
    ensures Sorted(bucket[i := bucket[i].(payload := payload)])
    ensures forall e :: e in bucket[i := bucket[i].(payload := payload)] <==>
      e == bucket[i].(payload := payload) || (e in bucket && e != bucket[i])
  {
    var touched := bucket[i := bucket[i].(payload := payload)];
    forall e ensures e in touched <==> e == touched[i] || (e in bucket && e != bucket[i]) {
      RestIsOthers(bucket, i, e);
      SplicedMembers(bucket[..i] + bucket[i + 1..], i, touched[i], e);
      assert touched == (bucket[..i] + bucket[i + 1..])[..i] + [touched[i]] + (bucket[..i] + bucket[i + 1..])[i..];
    }
  }

  /** A payload update exchanges one entry for the same entry with another payload. */
  lemma TouchedOk<T>(l: LaneState<T>, p: ProjectId, job: JobId, payload: T)
    requires LaneOk(l) && p in l.buckets && IndexOf(l.buckets[p], job) < |l.buckets[p]|
    ensures LaneOk(Touched(l, p, job, payload))
    ensures var entry := l.buckets[p][IndexOf(l.buckets[p], job)];
      && entry in Entries(l) && entry.job == job
      && Entries(Touched(l, p, job, payload)) == Entries(l) - {entry} + {entry.(payload := payload)}
      && Jobs(Touched(l, p, job, payload)) == Jobs(l)
  {
    var entry := l.buckets[p][IndexOf(l.buckets[p], job)];
    var l' := Touched(l, p, job, payload);
    TouchedFiles(l, p, job, payload);
    Enters(l, p, entry);
    TouchedCounts(Entries(l), Entries(l'), entry, payload);
    JobsAfterTouching(l, l', entry, entry.(payload := payload));
  }

  lemma TouchedFiles<T>(l: LaneState<T>, p: ProjectId, job: JobId, payload: T)
    requires Synchronized(l) && Filed(l) && p in l.buckets && IndexOf(l.buckets[p], job) < |l.buckets[p]|
    ensures Synchronized(Touched(l, p, job, payload)) && Filed(Touched(l, p, job, payload))
    ensures var entry := l.buckets[p][IndexOf(l.buckets[p], job)];
      Entries(Touched(l, p, job, payload)) == Entries(l) - {entry} + {entry.(payload := payload)}
  {
    var i := IndexOf(l.buckets[p], job);
    var entry := l.buckets[p][i];
    var l' := Touched(l, p, job, payload);
    TouchedBucket(l.buckets[p], i, payload);
    assert Filed(l');
    forall e ensures e in Entries(l') <==> e in Entries(l) - {entry} + {entry.(payload := payload)} {
      FiledIn(l, e);
      FiledIn(l', e);
    }
  }

  lemma TouchedCounts<T>(before: set<Entry<T>>, after: set<Entry<T>>, entry: Entry<T>, payload: T)
    requires entry in before && after == before - {entry} + {entry.(payload := payload)}
    requires forall e, f :: e in before && f in before && e.job == f.job ==> e == f
    ensures |after| == |before|
    ensures forall e, f :: e in after && f in after && e.job == f.job ==> e == f
  {
    assert entry.(payload := payload) !in before - {entry};
  }

  // ----- Places in the ring -----

  function Place(ring: seq<ProjectId>, p: ProjectId): (k: nat)
    requires p in ring
    ensures k < |ring| && ring[k] == p
  {
    if ring[0] == p then 0 else 1 + Place(ring[1..], p)
  }

  lemma {:induction false} PlaceIsFirst(ring: seq<ProjectId>, p: ProjectId, k: nat)
    requires k < |ring| && ring[k] == p
    ensures p in ring && Place(ring, p) <= k
  {
    if ring[0] != p { PlaceIsFirst(ring[1..], p, k - 1); }
  }

  lemma {:induction false} WithoutMovesUp(ring: seq<ProjectId>, gone: ProjectId, p: ProjectId)
    requires p in ring && p != gone
    ensures p in Without(ring, gone) && Place(Without(ring, gone), p) <= Place(ring, p)
  {
    if ring[0] != p {
      assert p in ring[1..];
      WithoutMovesUp(ring[1..], gone, p);
      if ring[0] != gone {
        assert Without(ring, gone)[1..] == Without(ring[1..], gone);
      }
    }
  }
}
