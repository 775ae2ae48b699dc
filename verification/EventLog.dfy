/** The job event log.  Sequence numbers are global and are handed out before commit, so commit
    order and sequence order differ in general; the job row lock makes them agree within a job. */
module EventLog {
  import opened Base

  datatype Event = Event(job: JobId, sequence: nat, terminal: bool)

  /** `committed` is in commit order.  `drafts` are the uncommitted inserts of open transactions. */
  datatype Log = Log(next: nat, committed: seq<Event>, drafts: map<nat, seq<Event>>, locks: map<JobId, nat>)

  datatype LogStep =
    | Begin(tx: nat)
    | Lock(tx: nat, job: JobId)
    | Insert(tx: nat, job: JobId, terminal: bool)
    | Commit(tx: nat)
    | Abort(tx: nat)

  /** An insert takes the job row lock first and holds it to the end of its transaction. */
  predicate CanStep(log: Log, step: LogStep) {
    match step
    case Begin(tx) => tx !in log.drafts
    case Lock(tx, job) => tx in log.drafts && job !in log.locks
    case Insert(tx, job, _) => tx in log.drafts && job in log.locks && log.locks[job] == tx
    case Commit(tx) => tx in log.drafts
    case Abort(tx) => tx in log.drafts
  }

  function Unlocked(locks: map<JobId, nat>, tx: nat): map<JobId, nat> {
    map job | job in locks && locks[job] != tx :: locks[job]
  }

  function Stepped(log: Log, step: LogStep): Log
    requires CanStep(log, step)
  {
    match step
    case Begin(tx) => log.(drafts := log.drafts[tx := []])
    case Lock(tx, job) => log.(locks := log.locks[job := tx])
    case Insert(tx, job, terminal) =>
      log.(next := log.next + 1, drafts := log.drafts[tx := log.drafts[tx] + [Event(job, log.next, terminal)]])
    case Commit(tx) =>
      log.(committed := log.committed + log.drafts[tx], drafts := log.drafts - {tx}, locks := Unlocked(log.locks, tx))
    case Abort(tx) =>
      log.(drafts := log.drafts - {tx}, locks := Unlocked(log.locks, tx))
  }

  ghost predicate LogHistory(logs: seq<Log>, steps: seq<LogStep>) {
    && |logs| == |steps| + 1
    && logs[0] == Log(1, [], map[], map[])
    && forall i {:trigger steps[i]} :: 0 <= i < |steps| ==>
         CanStep(logs[i], steps[i]) && logs[i + 1] == Stepped(logs[i], steps[i])
  }

  // ----- Order within a job -----

  /** Events of one job appear in sequence order. */
  ghost predicate Ordered(events: seq<Event>) {
    forall i, k :: 0 <= i < k < |events| && events[i].job == events[k].job ==>
      events[i].sequence < events[k].sequence
  }

  ghost predicate Below(events: seq<Event>, others: seq<Event>) {
    forall e, f :: e in events && f in others && e.job == f.job ==> e.sequence < f.sequence
  }

  ghost predicate DraftsOk(log: Log, tx: nat)
    requires tx in log.drafts
  {
    && Ordered(log.drafts[tx]) && Below(log.committed, log.drafts[tx])
    && forall e :: e in log.drafts[tx] ==>
         e.sequence < log.next && e.job in log.locks && log.locks[e.job] == tx
  }

  ghost predicate LogOk(log: Log) {
    && Ordered(log.committed)
    && (forall e :: e in log.committed ==> 0 < e.sequence < log.next)
    && (forall tx :: tx in log.drafts ==> DraftsOk(log, tx) && forall e :: e in log.drafts[tx] ==> e.sequence > 0)
    && log.next > 0
  }

  lemma InsertKeepsOk(log: Log, step: LogStep)
    requires LogOk(log) && step.Insert? && CanStep(log, step)
    ensures LogOk(Stepped(log, step))
  {
    var log' := Stepped(log, step);
    forall tx | tx in log'.drafts ensures DraftsOk(log', tx) { InsertKeepsDrafts(log, step, tx); }
  }

  lemma InsertKeepsDrafts(log: Log, step: LogStep, tx: nat)
    requires step.Insert? && CanStep(log, step) && tx in log.drafts && DraftsOk(log, tx)
    requires forall e :: e in log.committed ==> e.sequence < log.next
    ensures DraftsOk(Stepped(log, step), tx)
  {
    if tx == step.tx {
      var e := Event(step.job, log.next, step.terminal);
      NewestIsLast(log.drafts[tx], e);
      NewestIsAbove(log.committed, log.drafts[tx], e);
    }
  }

  lemma NewestIsLast(events: seq<Event>, e: Event)
    requires Ordered(events) && forall f :: f in events ==> f.sequence < e.sequence
    ensures Ordered(events + [e])
  {
    forall i, k | 0 <= i < k < |events + [e]| && (events + [e])[i].job == (events + [e])[k].job
      ensures (events + [e])[i].sequence < (events + [e])[k].sequence
    {
      assert (events + [e])[i] == events[i] && events[i] in events;
    }
  }

  lemma NewestIsAbove(events: seq<Event>, drafts: seq<Event>, e: Event)
    requires Below(events, drafts) && forall f :: f in events ==> f.sequence < e.sequence
    ensures Below(events, drafts + [e])
  {}

  lemma CommitKeepsOk(log: Log, step: LogStep)
    requires LogOk(log) && step.Commit? && CanStep(log, step)
    ensures LogOk(Stepped(log, step))
  {
    var log' := Stepped(log, step);
    assert DraftsOk(log, step.tx);
    forall i, k | 0 <= i < k < |log'.committed| && log'.committed[i].job == log'.committed[k].job
      ensures log'.committed[i].sequence < log'.committed[k].sequence
    {
      if i < |log.committed| <= k {
        assert log'.committed[i] in log.committed && log'.committed[k] in log.drafts[step.tx];
      }
    }
    forall tx | tx in log'.drafts ensures DraftsOk(log', tx) {
      assert DraftsOk(log, tx);
      forall e, f | e in log'.committed && f in log.drafts[tx] && e.job == f.job ensures e.sequence < f.sequence {
        assert e in log.committed;
      }
    }
  }

  lemma OtherStepKeepsOk(log: Log, step: LogStep)
    requires LogOk(log) && !step.Insert? && !step.Commit? && CanStep(log, step)
    ensures LogOk(Stepped(log, step))
  {
    var log' := Stepped(log, step);
    forall tx | tx in log'.drafts ensures DraftsOk(log', tx) {
      if tx in log.drafts { assert DraftsOk(log, tx); }
    }
  }

  lemma {:induction false} LogsAreOk(logs: seq<Log>, steps: seq<LogStep>, n: nat)
    requires LogHistory(logs, steps) && n <= |steps|
    ensures LogOk(logs[n])
  {
    if n > 0 {
      LogsAreOk(logs, steps, n - 1);
      var log, step := logs[n - 1], steps[n - 1];
      assert CanStep(log, step) && logs[n] == Stepped(log, step);
      match step
      case Insert(_, _, _) => InsertKeepsOk(log, step);
      case Commit(_) => CommitKeepsOk(log, step);
      case _ => OtherStepKeepsOk(log, step);
    }
  }

  lemma {:induction false} CommitsOnlyAppend(logs: seq<Log>, steps: seq<LogStep>, n: nat, m: nat)
    requires LogHistory(logs, steps) && n <= m <= |steps|
    ensures logs[n].committed <= logs[m].committed
    decreases m
  {
    if n < m {
      CommitsOnlyAppend(logs, steps, n, m - 1);
      assert CanStep(logs[m - 1], steps[m - 1]) && logs[m] == Stepped(logs[m - 1], steps[m - 1]);
    }
  }

  /** What the row lock is for: an event that becomes visible has a larger sequence than every
      event of its job that was visible before. */
  lemma LaterCommitsAreLarger(logs: seq<Log>, steps: seq<LogStep>, n: nat, m: nat, e: Event, f: Event)
    requires LogHistory(logs, steps) && n <= m <= |steps|
    requires e in logs[n].committed && f in logs[m].committed && f !in logs[n].committed && e.job == f.job
    ensures e.sequence < f.sequence
  {
    LogsAreOk(logs, steps, m);
    CommitsOnlyAppend(logs, steps, n, m);
    assert forall k :: 0 <= k < |logs[n].committed| ==> logs[m].committed[k] in logs[n].committed;
    var i :| 0 <= i < |logs[n].committed| && logs[n].committed[i] == e;
    var k :| 0 <= k < |logs[m].committed| && logs[m].committed[k] == f;
    assert logs[m].committed[i] == e;
  }

  // ----- Reading -----

  predicate Matches(e: Event, job: JobId, after: nat) {
    e.job == job && e.sequence > after
  }

  /** The visible events of a job past a sequence, in commit order. */
  function EventsAfter(events: seq<Event>, job: JobId, after: nat): seq<Event> {
    if events == [] then []
    else
      var init, last := events[..|events| - 1], events[|events| - 1];
      EventsAfter(init, job, after) + if Matches(last, job, after) then [last] else []
  }

  function InsertBySequence(events: seq<Event>, e: Event): seq<Event> {
    if events == [] || events[|events| - 1].sequence <= e.sequence then events + [e]
    else InsertBySequence(events[..|events| - 1], e) + [events[|events| - 1]]
  }

  function SortBySequence(events: seq<Event>): seq<Event> {
    if events == [] then []
    else InsertBySequence(SortBySequence(events[..|events| - 1]), events[|events| - 1])
  }

  function Take(events: seq<Event>, limit: nat): seq<Event> {
    if |events| <= limit then events else events[..limit]
  }

  /** `WHERE job_id = $1 AND sequence > $2 ORDER BY sequence LIMIT $3`. */
  function Page(committed: seq<Event>, job: JobId, after: nat, limit: nat): seq<Event> {
    Take(SortBySequence(EventsAfter(committed, job, after)), limit)
  }

  ghost predicate Increasing(events: seq<Event>) {
    forall i, k :: 0 <= i < k < |events| ==> events[i].sequence < events[k].sequence
  }

  lemma {:induction false} SortedAlready(events: seq<Event>)
    requires Increasing(events)
    ensures SortBySequence(events) == events
  {
    if events != [] {
      SortedAlready(events[..|events| - 1]);
    }
  }

  /** Events of one job past a sequence, in sequence order. */
  ghost predicate Selected(events: seq<Event>, job: JobId, after: nat) {
    Increasing(events) && forall i :: 0 <= i < |events| ==> Matches(events[i], job, after)
  }

  lemma {:induction false} SelectionHolds(events: seq<Event>, job: JobId, after: nat, e: Event)
    ensures e in EventsAfter(events, job, after) <==> e in events && Matches(e, job, after)
  {
    if events != [] {
      var init, last := events[..|events| - 1], events[|events| - 1];
      assert events == init + [last];
      SelectionHolds(init, job, after, e);
    }
  }

  lemma LastIsLargest(events: seq<Event>, i: nat)
    requires Ordered(events) && i < |events| - 1 && events[i].job == events[|events| - 1].job
    ensures events[i].sequence < events[|events| - 1].sequence
  {}

  lemma {:induction false} SelectionIsOrdered(events: seq<Event>, job: JobId, after: nat)
    requires Ordered(events)
    ensures Selected(EventsAfter(events, job, after), job, after)
  {
    if events != [] {
      var init, last := events[..|events| - 1], events[|events| - 1];
      var kept := EventsAfter(init, job, after);
      SelectionIsOrdered(init, job, after);
      if Matches(last, job, after) {
        forall i | 0 <= i < |kept| ensures kept[i].sequence < last.sequence {
          SelectionHolds(init, job, after, kept[i]);
          var k :| 0 <= k < |init| && init[k] == kept[i];
          LastIsLargest(events, k);
        }
        assert Increasing(kept + [last]);
      }
    }
  }

  lemma {:induction false} SelectionAppends(events: seq<Event>, more: seq<Event>, job: JobId, after: nat)
    ensures EventsAfter(events + more, job, after) == EventsAfter(events, job, after) + EventsAfter(more, job, after)
  {
    if more == [] {
      assert events + more == events;
    } else {
      var n := |more| - 1;
      SelectionAppends(events, more[..n], job, after);
      assert (events + more)[..|events + more| - 1] == events + more[..n];
    }
  }

  lemma {:induction false} NarrowerSelection(events: seq<Event>, job: JobId, start: nat, after: nat)
    requires start <= after
    ensures EventsAfter(EventsAfter(events, job, start), job, after) == EventsAfter(events, job, after)
  {
    if events != [] {
      var init, last := events[..|events| - 1], events[|events| - 1];
      NarrowerSelection(init, job, start, after);
      var kept := EventsAfter(init, job, start);
      if Matches(last, job, start) { assert (kept + [last])[..|kept + [last]| - 1] == kept; }
      else { assert EventsAfter(events, job, start) == kept; }
    }
  }

  lemma {:induction false} NothingPastEnd(events: seq<Event>, job: JobId, after: nat)
    requires forall i :: 0 <= i < |events| ==> events[i].sequence <= after
    ensures EventsAfter(events, job, after) == []
  {
    if events != [] { NothingPastEnd(events[..|events| - 1], job, after); }
  }

  lemma {:induction false} EverythingPast(events: seq<Event>, job: JobId, after: nat)
    requires forall i :: 0 <= i < |events| ==> Matches(events[i], job, after)
    ensures EventsAfter(events, job, after) == events
  {
    if events != [] { EverythingPast(events[..|events| - 1], job, after); }
  }

  /** Where a reader that has consumed `k` events of the job stands. */
  function Cursor(events: seq<Event>, start: nat, k: nat): nat
    requires k <= |events|
  {
    if k == 0 then start else events[k - 1].sequence
  }

  lemma PrefixIsConsumed(s: seq<Event>, job: JobId, start: nat, k: nat)
    requires Selected(s, job, start) && k <= |s|
    ensures start <= Cursor(s, start, k) && EventsAfter(s[..k], job, Cursor(s, start, k)) == []
  {
    NothingPastEnd(s[..k], job, Cursor(s, start, k));
  }

  lemma SuffixIsAhead(s: seq<Event>, job: JobId, start: nat, k: nat)
    requires Selected(s, job, start) && k <= |s|
    ensures EventsAfter(s[k..], job, Cursor(s, start, k)) == s[k..]
  {
    EverythingPast(s[k..], job, Cursor(s, start, k));
  }

  lemma SuffixFollowsCursor(s: seq<Event>, job: JobId, start: nat, k: nat)
    requires Selected(s, job, start) && k <= |s|
    ensures start <= Cursor(s, start, k) && EventsAfter(s, job, Cursor(s, start, k)) == s[k..] && Increasing(s[k..])
  {
    var after, front, rest := Cursor(s, start, k), s[..k], s[k..];
    assert s == front + rest;
    PrefixIsConsumed(s, job, start, k);
    SuffixIsAhead(s, job, start, k);
    calc {
      EventsAfter(s, job, after);
      EventsAfter(front + rest, job, after);
      { SelectionAppends(front, rest, job, after); }
      EventsAfter(front, job, after) + EventsAfter(rest, job, after);
      [] + rest;
    }
    SuffixIncreases(s, k);
  }

  lemma SuffixIncreases(s: seq<Event>, k: nat)
    requires Increasing(s) && k <= |s|
    ensures Increasing(s[k..])
  {}

  /** What is past the cursor is exactly what has not been consumed. */
  lemma CursorDivides(committed: seq<Event>, job: JobId, start: nat, k: nat)
    requires Ordered(committed) && k <= |EventsAfter(committed, job, start)|
    ensures var s := EventsAfter(committed, job, start);
      EventsAfter(committed, job, Cursor(s, start, k)) == s[k..] && Increasing(s[k..])
  {
    var s := EventsAfter(committed, job, start);
    SelectionIsOrdered(committed, job, start);
    SuffixFollowsCursor(s, job, start, k);
    NarrowerSelection(committed, job, start, Cursor(s, start, k));
  }

  /** The next page continues exactly where the cursor is. */
  lemma PageContinues(committed: seq<Event>, job: JobId, start: nat, k: nat, limit: nat)
    requires Ordered(committed) && k <= |EventsAfter(committed, job, start)|
    ensures var s := EventsAfter(committed, job, start);
      Page(committed, job, Cursor(s, start, k), limit) == Take(s[k..], limit)
  {
    CursorDivides(committed, job, start, k);
    SortedAlready(EventsAfter(committed, job, start)[k..]);
  }

  // ----- The event stream -----

  const BATCH: nat := 100

  datatype JobStatus = Running | Over | Missing | Unreadable

  /** What one turn of the loop sees of the outside: the visible log when it polls, whether the
      poll, the status lookup and the encoding succeed, and whether the server is stopping. */
  datatype View = View(committed: seq<Event>, pollFails: bool, status: JobStatus, encodes: bool, stopping: bool)

  datatype Reader = Reader(job: JobId, after: nat, pending: seq<Event>, closeNext: bool)

  datatype Outcome = Emitted(event: Event) | Closed | Again

  /** One turn of the loop. */
  function Turn(r: Reader, view: View): (Reader, Outcome) {
    if r.closeNext || view.stopping then (r, Closed)
    else if r.pending != [] then
      var e := r.pending[0];
      (Reader(r.job, e.sequence, r.pending[1..], e.terminal), if view.encodes then Emitted(e) else Closed)
    else if view.pollFails then (r, Closed)
    else
      var page := Page(view.committed, r.job, r.after, BATCH);
      if page != [] then (r.(pending := page), Again)
      else (r, if view.status.Running? then Again else Closed)
  }

  /** A whole call: turns until one emits or closes. */
  function NextOf(r: Reader, views: seq<View>): (Reader, Outcome)
    decreases |views|
  {
    if views == [] then (r, Again)
    else
      var (r', outcome) := Turn(r, views[0]);
      if outcome.Again? then NextOf(r', views[1..]) else (r', outcome)
  }

  class EventStream {
    const job: JobId
    var after: nat
    var pending: seq<Event>
    var closeNext: bool

    ghost function State(): Reader
      reads this
    {
      Reader(job, after, pending, closeNext)
    }

    constructor (job: JobId, lastEventId: nat)
      ensures State() == Reader(job, lastEventId, [], false)
    {
      this.job, after, pending, closeNext := job, lastEventId, [], false;
    }

    method NextEvent(views: seq<View>) returns (outcome: Outcome)
      modifies this
      ensures (State(), outcome) == NextOf(old(State()), views)
    {
      for i := 0 to |views|
        invariant NextOf(State(), views[i..]) == NextOf(old(State()), views)
      {
        var view := views[i];
        assert views[i..][1..] == views[i + 1..];
        if closeNext || view.stopping { return Closed; }
        if pending != [] {
          var event := pending[0];
          pending := pending[1..];
          after := event.sequence;
          closeNext := event.terminal;
          if !view.encodes { return Closed; }
          return Emitted(event);
        }
        if view.pollFails { return Closed; }
        var page := Page(view.committed, job, after, BATCH);
        if page != [] {
          pending := page;
        } else if !view.status.Running? {
          return Closed;
        }
      }
      return Again;
    }
  }

  // ----- Sessions -----

  function Delivered(outcomes: seq<Outcome>): seq<Event> {
    if outcomes == [] then []
    else
      var n := |outcomes| - 1;
      Delivered(outcomes[..n]) + if outcomes[n].Emitted? then [outcomes[n].event] else []
  }

  /** A connection: turns against ever later states of one log, until it closes. */
  ghost predicate Session(logs: seq<Log>, steps: seq<LogStep>, times: seq<nat>, views: seq<View>,
                          readers: seq<Reader>, outcomes: seq<Outcome>) {
    && LogHistory(logs, steps)
    && |times| == |views| == |outcomes| && |readers| == |views| + 1
    && (forall i {:trigger views[i]} :: 0 <= i < |views| ==>
          times[i] <= |steps| && views[i].committed == logs[times[i]].committed && (i > 0 ==> times[i - 1] <= times[i]))
    && readers[0].pending == [] && !readers[0].closeNext
    && (forall i {:trigger outcomes[i]} :: 0 <= i < |outcomes| ==> (readers[i + 1], outcomes[i]) == Turn(readers[i], views[i]))
    && (forall i {:trigger outcomes[i]} :: 0 <= i < |outcomes| - 1 ==> !outcomes[i].Closed?)
  }

  /** The last event sent told a terminal state. */
  predicate EndsJob(sent: seq<Event>) {
    sent != [] && sent[|sent| - 1].terminal
  }

  /** What has been sent and what is buffered are, together, a prefix of the job's log after the
      starting point, and the cursor is at the last event sent; and the reader is to
      close exactly when that one was terminal. */
  ghost predicate InStep(r: Reader, sent: seq<Event>, start: nat, job: JobId, committed: seq<Event>) {
    && r.job == job && (r.closeNext <==> EndsJob(sent))
    && sent + r.pending <= EventsAfter(committed, job, start)
    && r.after == Cursor(EventsAfter(committed, job, start), start, |sent|)
  }

  lemma CursorIsStable(events: seq<Event>, more: seq<Event>, start: nat, k: nat)
    requires k <= |events|
    ensures Cursor(events + more, start, k) == Cursor(events, start, k)
  {}

  lemma GrowthKeepsStep(r: Reader, sent: seq<Event>, start: nat, job: JobId, committed: seq<Event>, committed': seq<Event>)
    requires InStep(r, sent, start, job, committed) && committed <= committed'
    ensures InStep(r, sent, start, job, committed')
  {
    var more := committed'[|committed|..];
    assert committed' == committed + more;
    SelectionAppends(committed, more, job, start);
    CursorIsStable(EventsAfter(committed, job, start), EventsAfter(more, job, start), start, |sent|);
  }

  lemma TurnKeepsStep(r: Reader, view: View, sent: seq<Event>, start: nat, job: JobId)
    requires Ordered(view.committed) && InStep(r, sent, start, job, view.committed)
    ensures var (r', outcome) := Turn(r, view);
      && (outcome.Emitted? ==> InStep(r', sent + [outcome.event], start, job, view.committed))
      && (outcome.Again? ==> InStep(r', sent, start, job, view.committed))
  {
    var s := EventsAfter(view.committed, job, start);
    if !r.closeNext && !view.stopping {
      if r.pending != [] {
        var e := r.pending[0];
        assert s[|sent|] == (sent + r.pending)[|sent|] == e;
        assert sent + [e] + r.pending[1..] == sent + r.pending;
      } else if !view.pollFails {
        assert sent == s[..|sent|];
        PageContinues(view.committed, job, start, |sent|, BATCH);
        assert sent + Take(s[|sent|..], BATCH) <= s;
      }
    }
  }

  lemma TurnInSession(logs: seq<Log>, steps: seq<LogStep>, times: seq<nat>, views: seq<View>,
                      readers: seq<Reader>, outcomes: seq<Outcome>, n: nat)
    requires Session(logs, steps, times, views, readers, outcomes) && n < |outcomes|
    ensures (readers[n + 1], outcomes[n]) == Turn(readers[n], views[n]) && Ordered(views[n].committed)
    ensures n > 0 ==> views[n - 1].committed <= views[n].committed && !outcomes[n - 1].Closed?
  {
    var view := views[n];
    LogsAreOk(logs, steps, times[n]);
    if n > 0 {
      var before, last := views[n - 1], outcomes[n - 1];
      CommitsOnlyAppend(logs, steps, times[n - 1], times[n]);
    }
  }

  /** What one more turn adds to what has been sent. */
  lemma DeliveredAfter(outcomes: seq<Outcome>, n: nat)
    requires n < |outcomes|
    ensures Delivered(outcomes[..n + 1]) ==
      Delivered(outcomes[..n]) + if outcomes[n].Emitted? then [outcomes[n].event] else []
  {
    assert outcomes[..n + 1][..n] == outcomes[..n];
  }

  lemma StartsInStep(r: Reader, committed: seq<Event>)
    requires r.pending == [] && !r.closeNext
    ensures InStep(r, [], r.after, r.job, committed)
  {}

  lemma NextTurnInStep(r: Reader, view: View, r': Reader, outcome: Outcome, sent: seq<Event>, sent': seq<Event>,
                       start: nat, job: JobId, committed: seq<Event>)
    requires Ordered(view.committed) && InStep(r, sent, start, job, view.committed) && view.committed <= committed
    requires (r', outcome) == Turn(r, view) && !outcome.Closed?
    requires sent' == sent + if outcome.Emitted? then [outcome.event] else []
    ensures InStep(r', sent', start, job, committed)
  {
    TurnKeepsStep(r, view, sent, start, job);
    GrowthKeepsStep(r', sent', start, job, view.committed, committed);
  }

  lemma {:induction false} InStepBeforeTurn(
    logs: seq<Log>, steps: seq<LogStep>, times: seq<nat>, views: seq<View>,
    readers: seq<Reader>, outcomes: seq<Outcome>, n: nat)
    requires Session(logs, steps, times, views, readers, outcomes) && n < |outcomes|
    ensures InStep(readers[n], Delivered(outcomes[..n]), readers[0].after, readers[0].job, views[n].committed)
  {
    if n == 0 {
      StartsInStep(readers[0], views[0].committed);
      assert outcomes[..0] == [];
    } else {
      InStepBeforeTurn(logs, steps, times, views, readers, outcomes, n - 1);
      TurnInSession(logs, steps, times, views, readers, outcomes, n - 1);
      TurnInSession(logs, steps, times, views, readers, outcomes, n);
      DeliveredAfter(outcomes, n - 1);
      NextTurnInStep(readers[n - 1], views[n - 1], readers[n], outcomes[n - 1],
                     Delivered(outcomes[..n - 1]), Delivered(outcomes[..n]),
                     readers[0].after, readers[0].job, views[n].committed);
    }
  }

  /** Cursor soundness: what a connection has sent is at every moment a prefix, without gap or
      duplicate, of the job's events after Last-Event-ID, however transactions interleave. */
  lemma StreamIsPrefix(
    logs: seq<Log>, steps: seq<LogStep>, times: seq<nat>, views: seq<View>,
    readers: seq<Reader>, outcomes: seq<Outcome>, n: nat)
    requires Session(logs, steps, times, views, readers, outcomes) && n < |outcomes|
    ensures var s := EventsAfter(views[n].committed, readers[0].job, readers[0].after);
      Delivered(outcomes[..n + 1]) <= s && Increasing(s)
  {
    var job, start := readers[0].job, readers[0].after;
    InStepBeforeTurn(logs, steps, times, views, readers, outcomes, n);
    TurnInSession(logs, steps, times, views, readers, outcomes, n);
    TurnKeepsStep(readers[n], views[n], Delivered(outcomes[..n]), start, job);
    DeliveredAfter(outcomes, n);
    SelectionIsOrdered(views[n].committed, job, start);
  }

  /** And it does make progress: while the job has events that were not sent, the next two turns that
      are not cut short send the first of them. */
  lemma UnreadEventsAreSent(r: Reader, first: View, second: View, sent: seq<Event>, start: nat, job: JobId)
    requires Ordered(first.committed) && InStep(r, sent, start, job, first.committed)
    requires |sent| < |EventsAfter(first.committed, job, start)|
    requires !EndsJob(sent) && !first.stopping && !first.pollFails && first.encodes && !second.stopping && second.encodes
    ensures NextOf(r, [first, second]).1 == Emitted(EventsAfter(first.committed, job, start)[|sent|])
  {
    var s := EventsAfter(first.committed, job, start);
    assert [first, second][1..] == [second];
    if r.pending != [] {
      assert s[|sent|] == (sent + r.pending)[|sent|];
    } else {
      assert sent == s[..|sent|];
      PageContinues(first.committed, job, start, |sent|, BATCH);
      assert Take(s[|sent|..], BATCH)[0] == s[|sent|];
    }
  }

  /** Why a turn closes the connection, in terms of what it has sent and of what it meets: the server
      stops, the last event sent was terminal, the next event cannot be encoded, the poll fails, or
      nothing is left to send and the job is not running. */
  predicate ClosingCause(view: View, sent: seq<Event>, buffered: bool, log: seq<Event>) {
    || view.stopping
    || EndsJob(sent)
    || (if buffered then !view.encodes else view.pollFails || (|sent| == |log| && !view.status.Running?))
  }

  lemma TurnCloses(r: Reader, view: View, sent: seq<Event>, start: nat, job: JobId)
    requires Ordered(view.committed) && InStep(r, sent, start, job, view.committed)
    ensures Turn(r, view).1.Closed? <==>
      ClosingCause(view, sent, r.pending != [], EventsAfter(view.committed, job, start))
  {
    var s := EventsAfter(view.committed, job, start);
    if r.pending == [] {
      PageContinues(view.committed, job, start, |sent|, BATCH);
      assert Take(s[|sent|..], BATCH) == [] <==> |sent| == |s|;
    }
  }

  /** A connection closes in a turn exactly when it has one of these causes; in particular the turn
      after a terminal event closes it, and no other event does. */
  lemma ClosesExactly(
    logs: seq<Log>, steps: seq<LogStep>, times: seq<nat>, views: seq<View>,
    readers: seq<Reader>, outcomes: seq<Outcome>, n: nat)
    requires Session(logs, steps, times, views, readers, outcomes) && n < |outcomes|
    ensures outcomes[n].Closed? <==>
      ClosingCause(views[n], Delivered(outcomes[..n]), readers[n].pending != [],
                   EventsAfter(views[n].committed, readers[0].job, readers[0].after))
    ensures EndsJob(Delivered(outcomes[..n])) ==> outcomes[n].Closed?
  {
    InStepBeforeTurn(logs, steps, times, views, readers, outcomes, n);
    TurnInSession(logs, steps, times, views, readers, outcomes, n);
    TurnCloses(readers[n], views[n], Delivered(outcomes[..n]), readers[0].after, readers[0].job);
  }

  /** A reconnect that quotes the last event it received continues without repeating or skipping. */
  lemma ReconnectContinues(committed: seq<Event>, job: JobId, start: nat, sent: seq<Event>)
    requires Ordered(committed) && sent <= EventsAfter(committed, job, start) && sent != []
    ensures sent + EventsAfter(committed, job, sent[|sent| - 1].sequence) == EventsAfter(committed, job, start)
  {
    CursorDivides(committed, job, start, |sent|);
  }
}
