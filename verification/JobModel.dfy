/** The durable job table and its operations as functions (src/jobs/queue.ts). */
module JobModel {

  import opened Common
  import opened Processes

  datatype JobKind =
    | DeliverAudio | Asr | DeliverTranscript | Summarize | DeliverReport | Deliver
    | IncomingAudio | Digest | Retention

  type JobId = nat

  /** A lease token: the owner prefix and a random part. */
  datatype Token = Token(owner: JobOwner, nonce: nat)

  datatype JobState = Pending | Leased(token: Token, expiresAt: int) | Done | Dead

  datatype Job = Job(
    kind: JobKind, key: string, payload: string, state: JobState,
    attempts: int, maxAttempts: int, runAfter: int, createdAt: int)

  type Table = map<JobId, Job>

  const MAX_BACKOFF_MS := 15 * 60 * 1000

  function Power2(n: nat): nat { if n == 0 then 1 else 2 * Power2(n - 1) }

  /** Exponential backoff with a ceiling; a job that has failed has at least one attempt. */
  function BackoffMs(attempts: nat): nat { Min(Power2(attempts) * 1000, MAX_BACKOFF_MS) }

  predicate CanRetryDeadJob(kind: JobKind) { kind != Digest && kind != Retention }

  function Rank(kind: JobKind): nat {
    match kind
    case DeliverAudio => 0
    case DeliverTranscript => 1
    case Asr => 2
    case IncomingAudio => 2
    case Summarize => 3
    case DeliverReport => 4
    case _ => 5
  }

  predicate KeyTaken(t: Table, key: string) { exists id :: id in t && t[id].key == key }

  function Enqueue(
    t: Table, id: JobId, kind: JobKind, key: string, payload: string, maxAttempts: int, runAfter: int, now: int)
    : Table
  {
    if KeyTaken(t, key) then t
    else t[id := Job(kind, key, payload, Pending, 0, maxAttempts, runAfter, now)]
  }

  predicate Runnable(job: Job, kinds: set<JobKind>, now: int) {
    job.state == Pending && job.runAfter <= now && job.kind in kinds
  }

  /** Delivery before recognition before reports; oldest first within a rank. */
  predicate NoLater(a: Job, b: Job) {
    || Rank(a.kind) < Rank(b.kind)
    || (Rank(a.kind) == Rank(b.kind)
        && (a.runAfter < b.runAfter || (a.runAfter == b.runAfter && a.createdAt <= b.createdAt)))
  }

  ghost predicate IsNext(t: Table, id: JobId, kinds: set<JobKind>, now: int) {
    && id in t && Runnable(t[id], kinds, now)
    && forall other :: other in t && Runnable(t[other], kinds, now) ==> NoLater(t[id], t[other])
  }

  function Claim(t: Table, id: JobId, token: Token, leaseUntil: int): Table
    requires id in t
  {
    t[id := t[id].(state := Leased(token, leaseUntil), attempts := t[id].attempts + 1)]
  }

  /** The row still carries this claim generation, expired or not. */
  predicate Holds(t: Table, id: JobId, token: Token) {
    id in t && t[id].state.Leased? && t[id].state.token == token
  }

  predicate AssertLease(t: Table, id: JobId, token: Token, now: int) {
    Holds(t, id, token) && t[id].state.expiresAt > now
  }

  function Renew(t: Table, id: JobId, token: Token, leaseUntil: int): Table {
    if Holds(t, id, token) then t[id := t[id].(state := Leased(token, leaseUntil))] else t
  }

  function Complete(t: Table, id: JobId, token: Token, now: int): Table {
    if AssertLease(t, id, token, now) then t[id := t[id].(state := Done)] else t
  }

  datatype FailureOutcome = Retry | DeadNow | Lost

  function FailOutcome(t: Table, id: JobId, token: Token, now: int): FailureOutcome {
    if !AssertLease(t, id, token, now) then Lost
    else if t[id].attempts >= t[id].maxAttempts then DeadNow
    else Retry
  }

  function Fail(t: Table, id: JobId, token: Token, now: int): Table {
    match FailOutcome(t, id, token, now)
    case Lost => t
    case DeadNow => t[id := t[id].(state := Dead, runAfter := now)]
    case Retry => t[id := t[id].(state := Pending, runAfter := now + BackoffMs(Max(0, t[id].attempts)))]
  }

  function RecoverStale(t: Table, now: int): Table {
    map id | id in t :: if t[id].state.Leased? && t[id].state.expiresAt <= now
                        then t[id].(state := Pending) else t[id]
  }

  /** A claim that is undone rather than failed gives its attempt back. */
  function Refunded(job: Job, now: int): Job {
    job.(state := Pending, attempts := Max(0, job.attempts - 1), runAfter := now)
  }

  predicate OwnedBy(job: Job, owner: JobOwner) { job.state.Leased? && job.state.token.owner == owner }

  function RecoverAfterDeath(t: Table, owner: JobOwner, now: int): Table {
    map id | id in t :: if OwnedBy(t[id], owner) then Refunded(t[id], now) else t[id]
  }

  function ReleaseInterrupted(t: Table, id: JobId, token: Token, now: int): Table {
    if AssertLease(t, id, token, now) then t[id := Refunded(t[id], now)] else t
  }

  datatype RetryOutcome = Requeued | NotFound | Unsupported | LanguageUnsupported | Refused

  /** `prepared` is false when an incoming recording is not in a retryable state and
      the transaction is rolled back. */
  function RetryOutcomeOf(t: Table, id: JobId, language: bool, prepared: bool): RetryOutcome {
    if id !in t || t[id].state != Dead then NotFound
    else if !CanRetryDeadJob(t[id].kind) then Unsupported
    else if language && t[id].kind != Asr && t[id].kind != IncomingAudio then LanguageUnsupported
    else if language && t[id].kind == IncomingAudio && !prepared then Refused
    else Requeued
  }

  function RetryDead(t: Table, id: JobId, language: bool, prepared: bool, payload: string, now: int): Table {
    if RetryOutcomeOf(t, id, language, prepared) != Requeued then t
    else t[id := t[id].(
             payload := if language then payload else t[id].payload, state := Pending, attempts := 0, runAfter := now)]
  }
}
