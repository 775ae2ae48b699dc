/** Dead letters, and the keys under which the outbox stores them. */
module DeadLetters {
  import opened Base

  datatype Reason = MalformedMessage | CanonicalJobInconsistent | AttemptsExhausted

  datatype DeadLetter = DeadLetter(job: Option<JobId>, source: Option<nat>, attempt: nat, reason: Reason)

  datatype LetterError = ZeroAttempt | ZeroSourceStreamSequence | MissingStableIdentity

  function Validate(letter: DeadLetter): Option<LetterError> {
    if letter.attempt == 0 then Some(ZeroAttempt)
    else if letter.source == Some(0) then Some(ZeroSourceStreamSequence)
    else if (if letter.reason.AttemptsExhausted? then letter.job.None? else letter.source.None?) then
      Some(MissingStableIdentity)
    else None
  }

  /** What an outbox row is about.  The table's unique event_key is the rendering of one of these. */
  datatype OutboxKey =
    | QueuedKey(job: JobId)
    | ExhaustedKey(job: JobId, attempt: nat)
    | MalformedKey(sequence: nat)
    | InconsistentKey(sequence: nat)

  /** The stable identity of a valid dead letter: job and attempt, or source sequence. */
  function Identity(letter: DeadLetter): OutboxKey
    requires Validate(letter).None?
  {
    match letter.reason
    case AttemptsExhausted => ExhaustedKey(letter.job.value, letter.attempt)
    case MalformedMessage => MalformedKey(letter.source.value)
    case CanonicalJobInconsistent => InconsistentKey(letter.source.value)
  }

  function Digit(d: nat): char
    requires d < 10
  {
    "0123456789"[d]
  }

  function Decimal(n: nat): string {
    if n < 10 then [Digit(n)] else Decimal(n / 10) + [Digit(n % 10)]
  }

  /** Every dead-letter key has the shape `dlq:<field>:<tail>`. */
  function Format(field: string, tail: string): string {
    "dlq:" + (field + ":" + tail)
  }

  const JOB_QUEUE := "JOB_QUEUE"
  const MALFORMED_SUFFIX := "malformed_message"
  const INCONSISTENT_SUFFIX := "canonical_job_inconsistent"

  function IdempotencyKey(letter: DeadLetter): Result<string, LetterError> {
    match Validate(letter)
    case Some(error) => Err(error)
    case None =>
      match letter.reason
      case AttemptsExhausted => Ok(Format(letter.job.value, Decimal(letter.attempt)))
      case MalformedMessage => Ok(Format(JOB_QUEUE, Decimal(letter.source.value) + ":" + MALFORMED_SUFFIX))
      case CanonicalJobInconsistent =>
        Ok(Format(JOB_QUEUE, Decimal(letter.source.value) + ":" + INCONSISTENT_SUFFIX))
  }

  /** The marker key that recovery, the advisory handler and the dispatcher look up. */
  function ExhaustionEventKey(job: JobId, attempt: nat): string {
    Format(job, Decimal(Max(attempt, 1)))
  }

  predicate IdentifierChar(c: char) {
    'a' <= c <= 'z' || 'A' <= c <= 'Z' || '0' <= c <= '9' || c == '_' || c == '-'
  }

  /** `job_` followed by at least one identifier character. */
  predicate ValidJobId(id: JobId) {
    "job_" <= id && |id| > 4 && forall i :: 4 <= i < |id| ==> IdentifierChar(id[i])
  }

  predicate NoColon(s: string) {
    forall i :: 0 <= i < |s| ==> s[i] != ':'
  }

  lemma {:induction false} DecimalIsPlain(n: nat)
    ensures NoColon(Decimal(n)) && |Decimal(n)| > 0
  {
    if n >= 10 { DecimalIsPlain(n / 10); }
  }

  lemma DigitIsInjective(c: nat, d: nat)
    requires c < 10 && d < 10 && Digit(c) == Digit(d)
    ensures c == d
  {}

  lemma DecimalEnds(n: nat)
    ensures var s := Decimal(n);
      |s| > 0 && s[|s| - 1] == Digit(n % 10) && (n >= 10 ==> s[..|s| - 1] == Decimal(n / 10)) && (|s| == 1 <==> n < 10)
  {
    DecimalIsPlain(n / 10);
  }

  lemma {:induction false} DecimalIsInjective(a: nat, b: nat)
    requires Decimal(a) == Decimal(b)
    ensures a == b
  {
    DecimalEnds(a);
    DecimalEnds(b);
    DigitIsInjective(a % 10, b % 10);
    if a >= 10 { DecimalIsInjective(a / 10, b / 10); }
  }

  /** Text splits in only one way at the first colon. */
  lemma SplitIsUnique(a: string, x: string, b: string, y: string)
    requires NoColon(a) && NoColon(b) && a + ":" + x == b + ":" + y
    ensures a == b && x == y
  {
    var s := a + ":" + x;
    assert s == b + ":" + y;
    assert s[|a|] == ':' && s[|b|] == ':';
    assert a == s[..|a|] && b == s[..|b|];
    assert x == s[|a| + 1..] && y == s[|b| + 1..];
  }

  /** How each key is written in the event_key column. */
  function Render(key: OutboxKey): string {
    match key
    case QueuedKey(job) => job
    case ExhaustedKey(job, attempt) => Format(job, Decimal(attempt))
    case MalformedKey(sequence) => Format(JOB_QUEUE, Decimal(sequence) + ":" + MALFORMED_SUFFIX)
    case InconsistentKey(sequence) => Format(JOB_QUEUE, Decimal(sequence) + ":" + INCONSISTENT_SUFFIX)
  }

  predicate NamesValidJob(key: OutboxKey) {
    key.QueuedKey? || key.ExhaustedKey? ==> ValidJobId(key.job)
  }

  lemma JobIdsArePlain(id: JobId)
    requires ValidJobId(id)
    ensures NoColon(id) && id[0] == 'j'
  {
    assert id[..4] == "job_";
    forall i | 0 <= i < |id| ensures id[i] != ':' {
      if i < 4 { assert id[i] == id[..4][i]; }
    }
  }

  lemma FormatIsInjective(a: string, x: string, b: string, y: string)
    requires NoColon(a) && NoColon(b) && Format(a, x) == Format(b, y)
    ensures a == b && x == y
  {
    assert Format(a, x)[4..] == a + ":" + x && Format(b, y)[4..] == b + ":" + y;
    SplitIsUnique(a, x, b, y);
  }

  lemma SequenceTailsAreInjective(a: nat, x: string, b: nat, y: string)
    requires Decimal(a) + ":" + x == Decimal(b) + ":" + y
    ensures a == b && x == y
  {
    DecimalIsPlain(a);
    DecimalIsPlain(b);
    SplitIsUnique(Decimal(a), x, Decimal(b), y);
    DecimalIsInjective(a, b);
  }

  /** No two of these keys, queue row or dead letter, share an event_key. */
  lemma KeysAreInjective(a: OutboxKey, b: OutboxKey)
    requires NamesValidJob(a) && NamesValidJob(b)
    ensures Render(a) == Render(b) <==> a == b
  {
    if Render(a) == Render(b) {
      if a.QueuedKey? || b.QueuedKey? {
        QueuedKeysStandApart(a, b);
      } else {
        LetterKeysDiffer(a, b);
      }
    }
  }

  lemma RenderHead(key: OutboxKey)
    requires NamesValidJob(key)
    ensures |Render(key)| > 0 && Render(key)[0] == if key.QueuedKey? then 'j' else 'd'
  {
    if key.QueuedKey? { JobIdsArePlain(key.job); }
  }

  lemma QueuedKeysStandApart(a: OutboxKey, b: OutboxKey)
    requires NamesValidJob(a) && NamesValidJob(b) && Render(a) == Render(b)
    requires a.QueuedKey? || b.QueuedKey?
    ensures a == b
  {
    RenderHead(a);
    RenderHead(b);
  }

  lemma LetterKeysDiffer(a: OutboxKey, b: OutboxKey)
    requires NamesValidJob(a) && NamesValidJob(b) && Render(a) == Render(b)
    requires !a.QueuedKey? && !b.QueuedKey?
    ensures a == b
  {
    if a.ExhaustedKey? { JobIdsArePlain(a.job); }
    if b.ExhaustedKey? { JobIdsArePlain(b.job); }
    var fa := if a.ExhaustedKey? then a.job else JOB_QUEUE;
    var fb := if b.ExhaustedKey? then b.job else JOB_QUEUE;
    var xa := if a.MalformedKey? then MALFORMED_SUFFIX else INCONSISTENT_SUFFIX;
    var xb := if b.MalformedKey? then MALFORMED_SUFFIX else INCONSISTENT_SUFFIX;
    var ta := if a.ExhaustedKey? then Decimal(a.attempt) else Decimal(a.sequence) + ":" + xa;
    var tb := if b.ExhaustedKey? then Decimal(b.attempt) else Decimal(b.sequence) + ":" + xb;
    FormatIsInjective(fa, ta, fb, tb);
    assert JOB_QUEUE[0] == 'J';
    if a.ExhaustedKey? && b.ExhaustedKey? {
      DecimalIsInjective(a.attempt, b.attempt);
    } else {
      SequenceTailsAreInjective(a.sequence, xa, b.sequence, xb);
      assert |MALFORMED_SUFFIX| == 17 && |INCONSISTENT_SUFFIX| == 26;
    }
  }

  /** Valid dead letters share a key exactly when they share a reason family and stable identity. */
  lemma LetterKeysAreInjective(a: DeadLetter, b: DeadLetter)
    requires Validate(a).None? && Validate(b).None?
    requires NamesValidJob(Identity(a)) && NamesValidJob(Identity(b))
    ensures IdempotencyKey(a) == IdempotencyKey(b) <==> Identity(a) == Identity(b)
    ensures IdempotencyKey(a) == Ok(Render(Identity(a)))
  {
    KeysAreInjective(Identity(a), Identity(b));
  }

  /** The marker looked up for an exhausted job is the key its dead letter was stored under,
      and no other letter of a valid job is stored there. */
  lemma ExhaustionKeyAgrees(letter: DeadLetter, job: JobId, attempt: nat)
    requires Validate(letter).None? && NamesValidJob(Identity(letter)) && ValidJobId(job)
    ensures IdempotencyKey(letter) == Ok(ExhaustionEventKey(job, attempt))
      <==> letter.reason.AttemptsExhausted? && letter.job == Some(job) && letter.attempt == Max(attempt, 1)
  {
    KeysAreInjective(Identity(letter), ExhaustedKey(job, Max(attempt, 1)));
  }

  // ----- The whole event_key column -----

  /** Besides the rows above, the column holds one webhook delivery per event and webhook. */
  datatype EventKey = Modelled(key: OutboxKey) | WebhookDelivery(event: string, webhook: string)

  function RenderEventKey(key: EventKey): string {
    match key
    case Modelled(outbox) => Render(outbox)
    case WebhookDelivery(event, webhook) => "webhook:" + (event + ":" + webhook)
  }

  /** Job ids, event ids and webhook ids are identifiers, which have no colon. */
  predicate NamesValidIds(key: EventKey) {
    match key
    case Modelled(outbox) => NamesValidJob(outbox)
    case WebhookDelivery(event, webhook) => NoColon(event) && NoColon(webhook)
  }

  /** No two rows of any family share an event_key. */
  lemma EventKeysAreInjective(a: EventKey, b: EventKey)
    requires NamesValidIds(a) && NamesValidIds(b)
    ensures RenderEventKey(a) == RenderEventKey(b) <==> a == b
  {
    if RenderEventKey(a) == RenderEventKey(b) {
      match (a, b)
      case (Modelled(k), Modelled(l)) => KeysAreInjective(k, l);
      case (WebhookDelivery(e, w), WebhookDelivery(f, v)) => WebhookKeysDiffer(e, w, f, v);
      case (Modelled(k), WebhookDelivery(_, _)) => RenderHead(k);
      case (WebhookDelivery(_, _), Modelled(l)) => RenderHead(l);
    }
  }

  lemma WebhookKeysDiffer(e: string, w: string, f: string, v: string)
    requires NoColon(e) && NoColon(f) && "webhook:" + (e + ":" + w) == "webhook:" + (f + ":" + v)
    ensures e == f && w == v
  {
    assert ("webhook:" + (e + ":" + w))[8..] == e + ":" + w && ("webhook:" + (f + ":" + v))[8..] == f + ":" + v;
    SplitIsUnique(e, w, f, v);
  }
}
