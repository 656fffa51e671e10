/** Durable recording state and what crash recovery makes of it
    (src/capture/recovery.ts, src/database/repository.ts). The functions say row by
    row what one repairing pass does; the order of rows does not enter. */
module RecoveryModel {

  import opened Common

  type SessionId = nat
  type PartId = nat

  datatype SessionState = ACTIVE | FINALIZING | PROCESSING | DELIVERING | DONE | FAILED | REJECTED

  datatype Reason = NoReason | AudioFinalizeFailed | Interrupted | OtherReason

  datatype Timing = Timing(endedAt: int, durationMs: int, speechMs: int)

  /** `exact` is present when `timing_exact` is 1. */
  datatype Session = Session(state: SessionState, reason: Reason, exact: Option<Timing>, partCount: nat)

  datatype PartTiming = PartTiming(endedAt: int, durationMs: int)

  /** Size and checksum of an archive file. */
  datatype Blob = Blob(bytes: nat, sha256: nat)

  datatype Part = Part(
    session: SessionId, timing: Option<PartTiming>, blob: Option<Blob>,
    finalized: bool, delivered: bool, deleted: bool)

  /** `final` is present on the journal of a session's last part. */
  datatype Journal = Journal(session: SessionId, timing: PartTiming, final: Option<Timing>)

  datatype JobKind = DeliverAudio | Asr | Downstream | OtherKind

  datatype JobKey = InitialKey(kind: JobKind, session: SessionId) | OtherKey(id: nat)

  datatype Job = Job(kind: JobKind, payloadSession: Option<SessionId>, dead: bool)

  datatype OutboxKind = Status | Audio | OtherOutbox

  datatype OutboxId = FinalizedStatus(session: SessionId) | OtherStatus(session: SessionId) | OtherOutboxId(id: nat)

  /** `canonical`: the payload is a text message. */
  datatype OutboxRow = OutboxRow(kind: OutboxKind, session: Option<SessionId>, canonical: bool)

  /** `published` is the archive directory: the file at each part's path. */
  datatype Db = Db(
    sessions: map<SessionId, Session>,
    parts: map<PartId, Part>,
    journal: map<PartId, Journal>,
    jobs: map<JobKey, Job>,
    outbox: map<OutboxId, OutboxRow>,
    transcripts: set<SessionId>,
    published: map<PartId, Blob>)

  predicate Live(s: SessionState) { s == ACTIVE || s == FINALIZING }

  predicate FinalizeFailed(s: Session) { s.state == FAILED && s.reason == AudioFinalizeFailed }

  // ------------------------------------------------------- phase 1: archive files

  predicate Blank(part: Part) {
    !part.finalized && !part.delivered && !part.deleted && part.timing.None? && part.blob.None?
  }

  predicate TerminalMissing(db: Db, p: PartId)
    requires p in db.parts
  {
    var part := db.parts[p];
    && Blank(part)
    && part.session in db.sessions && FinalizeFailed(db.sessions[part.session])
    && !(p in db.journal && db.journal[p].session == part.session)
  }

  predicate Unreconciled(db: Db, p: PartId) {
    p in db.parts && !db.parts[p].finalized && !db.parts[p].deleted
  }

  function RecoveredPart(db: Db, p: PartId): Part
    requires p in db.parts
  {
    if !Unreconciled(db, p) then db.parts[p]
    else if p in db.published then
      db.parts[p].(finalized := true, blob := Some(db.published[p]),
                   timing := if p in db.journal then Some(db.journal[p].timing) else None)
    else if TerminalMissing(db, p) then db.parts[p].(deleted := true)
    else db.parts[p]
  }

  /** The journal of a recovered part is consumed unless its session is still open. */
  predicate ConsumesJournal(db: Db, p: PartId)
    requires p in db.journal
  {
    && Unreconciled(db, p) && p in db.published
    && (db.journal[p].final.None?
        || (db.journal[p].session in db.sessions
            && db.sessions[db.journal[p].session].exact.Some?
            && !Live(db.sessions[db.journal[p].session].state)))
  }

  function ReconcilePublished(db: Db): Db {
    db.(parts := map p | p in db.parts :: RecoveredPart(db, p),
        journal := map p | p in db.journal && !ConsumesJournal(db, p) :: db.journal[p])
  }

  /** The transaction for one row. */
  function ReconcileOnePart(db: Db, p: PartId): Db
    requires p in db.parts
  {
    db.(parts := db.parts[p := RecoveredPart(db, p)],
        journal := if p in db.journal && ConsumesJournal(db, p) then db.journal - {p} else db.journal)
  }

  // ---------------------------------------------------- phase 2: stalled sessions

  function FinalizedParts(db: Db, s: SessionId): set<PartId> {
    set p | p in db.parts && db.parts[p].session == s && db.parts[p].finalized
  }

  predicate Stalled(db: Db, s: SessionId) {
    && s in db.sessions
    && (Live(db.sessions[s].state) || (FinalizeFailed(db.sessions[s]) && FinalizedParts(db, s) != {}))
  }

  /** The journal that carries the final timing of a session. */
  ghost predicate IsFinalJournal(db: Db, s: SessionId, p: PartId) {
    p in db.journal && db.journal[p].session == s && db.journal[p].final.Some?
  }

  ghost function FinalTimingOf(db: Db, s: SessionId): Option<Timing> {
    if p: PartId :| IsFinalJournal(db, s, p) then db.journal[p].final else None
  }

  ghost function RecoveredSession(db: Db, s: SessionId): Session
    requires s in db.sessions
  {
    var row, exact := db.sessions[s], FinalTimingOf(db, s);
    if !Stalled(db, s) then row
    else
      var timed := row.(exact := if exact.Some? then exact else row.exact);
      if FinalizedParts(db, s) != {}
      then timed.(state := PROCESSING, reason := NoReason, partCount := |FinalizedParts(db, s)|)
      else timed.(state := FAILED, reason := Interrupted)
  }

  predicate Revived(db: Db, s: SessionId) { Stalled(db, s) && FinalizedParts(db, s) != {} }

  function InitialJob(kind: JobKind, s: SessionId): Job { Job(kind, Some(s), false) }

  /** Jobs and statuses are inserted only where their key is free. */
  function WithInitialJobs(jobs: map<JobKey, Job>, revived: set<SessionId>): map<JobKey, Job> {
    (map key | key in (set s, k | s in revived && k in {DeliverAudio, Asr} :: InitialKey(k, s)) ::
       InitialJob(key.kind, key.session)) + jobs
  }

  function StatusRow(s: SessionId): OutboxRow { OutboxRow(Status, Some(s), true) }

  function WithStatuses(outbox: map<OutboxId, OutboxRow>, revived: set<SessionId>): map<OutboxId, OutboxRow> {
    (map id | id in (set s | s in revived :: FinalizedStatus(s)) :: StatusRow(id.session)) + outbox
  }

  ghost function ReconcileStalled(db: Db): Db {
    var revived := set s | s in db.sessions && Revived(db, s);
    db.(sessions := map s | s in db.sessions :: RecoveredSession(db, s),
        journal := map p | p in db.journal && !Stalled(db, db.journal[p].session) :: db.journal[p],
        jobs := WithInitialJobs(db.jobs, revived),
        outbox := WithStatuses(db.outbox, revived))
  }

  /** The transaction for one session. */
  ghost function ReconcileOneSession(db: Db, s: SessionId): Db
    requires s in db.sessions
  {
    db.(sessions := db.sessions[s := RecoveredSession(db, s)],
        journal := map p | p in db.journal && db.journal[p].session != s :: db.journal[p],
        jobs := WithInitialJobs(db.jobs, if Revived(db, s) then {s} else {}),
        outbox := WithStatuses(db.outbox, if Revived(db, s) then {s} else {}))
  }

  // -------------------------------------- phase 3: sessions without their first jobs

  datatype Assessment = Complete | Blocked | Repair

  function UsableParts(db: Db, s: SessionId): set<PartId> {
    set p | p in db.parts && db.parts[p].session == s && db.parts[p].finalized && !db.parts[p].deleted
  }

  predicate JobConflicts(db: Db, s: SessionId, kind: JobKind) {
    var key := InitialKey(kind, s);
    key in db.jobs && (db.jobs[key].kind != kind || db.jobs[key].payloadSession != Some(s) || db.jobs[key].dead)
  }

  predicate IsMisplaced(key: JobKey, job: Job, s: SessionId) {
    CarriesWork(job, s) && key != InitialKey(job.kind, s)
  }

  predicate MisplacedJob(db: Db, s: SessionId) {
    exists key :: key in db.jobs && IsMisplaced(key, db.jobs[key], s)
  }

  predicate DownstreamProof(db: Db, s: SessionId) {
    || s in db.transcripts
    || (exists key :: key in db.jobs && db.jobs[key].kind == Downstream && db.jobs[key].payloadSession == Some(s))
    || (InitialKey(DeliverAudio, s) !in db.jobs
        && ((exists p :: p in db.parts && db.parts[p].session == s && db.parts[p].delivered)
            || (exists id :: id in db.outbox && db.outbox[id].kind == Audio && db.outbox[id].session == Some(s))))
  }

  predicate StatusConflicts(db: Db, s: SessionId) {
    FinalizedStatus(s) in db.outbox && db.outbox[FinalizedStatus(s)] != StatusRow(s)
  }

  function Assess(db: Db, s: SessionId): Assessment {
    if s !in db.sessions || db.sessions[s].state != PROCESSING then Complete
    else if UsableParts(db, s) == {} then Blocked
    else if JobConflicts(db, s, DeliverAudio) || JobConflicts(db, s, Asr) then Blocked
    else if InitialKey(DeliverAudio, s) in db.jobs && InitialKey(Asr, s) in db.jobs then Complete
    else if MisplacedJob(db, s) || DownstreamProof(db, s) || StatusConflicts(db, s) then Blocked
    else Repair
  }

  /** The transaction for one session. */
  function RepairSession(db: Db, s: SessionId): Db
    requires s in db.sessions
  {
    db.(sessions := db.sessions[s := db.sessions[s].(partCount := |UsableParts(db, s)|)],
        jobs := WithInitialJobs(db.jobs, {s}),
        outbox := WithStatuses(db.outbox, {s}))
  }

  function ReconcileProcessing(db: Db): Db {
    var repaired := set s | s in db.sessions && Assess(db, s) == Repair;
    db.(sessions := map s | s in db.sessions ::
          if s in repaired then db.sessions[s].(partCount := |UsableParts(db, s)|) else db.sessions[s],
        jobs := WithInitialJobs(db.jobs, repaired),
        outbox := WithStatuses(db.outbox, repaired))
  }

  /** One repairing pass after a crash. */
  ghost function Recover(db: Db): Db {
    ReconcileProcessing(ReconcileStalled(ReconcilePublished(db)))
  }

  // ----------------------------------------------------------------- the invariant

  /** What the recording protocol keeps true of durable state at every instant. */
  ghost predicate Consistent(db: Db) {
    && (forall p :: p in db.parts ==> db.parts[p].session in db.sessions && PartConsistent(db, p))
    && (forall p :: p in db.journal ==> p in db.parts && JournalConsistent(db, p))
    && (forall p :: p in db.published ==> p in db.parts)
    && (forall s, p, q :: IsFinalJournal(db, s, p) && IsFinalJournal(db, s, q) ==> p == q)
    && (forall s :: s in db.sessions ==>
          && (Live(db.sessions[s].state) ==> db.sessions[s].exact.None?)
          && (FinalizeFailed(db.sessions[s]) ==> db.sessions[s].exact.Some?))
    && (forall s :: Unsettled(db, s) ==> NoWorkYet(db, s))
  }

  /** The recording of this session has not been handed to the pipeline. */
  predicate Unsettled(db: Db, s: SessionId) {
    s in db.sessions ==> Live(db.sessions[s].state) || FinalizeFailed(db.sessions[s])
  }

  predicate CarriesWork(job: Job, s: SessionId) {
    (job.kind == DeliverAudio || job.kind == Asr) && job.payloadSession == Some(s)
  }

  /** First jobs and the finalized status are only ever enqueued when a session is
      settled. */
  ghost predicate NoWorkYet(db: Db, s: SessionId) {
    && InitialKey(DeliverAudio, s) !in db.jobs && InitialKey(Asr, s) !in db.jobs && FinalizedStatus(s) !in db.outbox
    && forall key :: key in db.jobs ==> !CarriesWork(db.jobs[key], s)
  }

  /** Exactly one `deliver-audio` job and one `asr` job, runnable and with the session
      as payload, and the status message. */
  ghost predicate HasFirstWork(db: Db, s: SessionId) {
    && InitialKey(DeliverAudio, s) in db.jobs && db.jobs[InitialKey(DeliverAudio, s)] == InitialJob(DeliverAudio, s)
    && InitialKey(Asr, s) in db.jobs && db.jobs[InitialKey(Asr, s)] == InitialJob(Asr, s)
    && (forall key :: key in db.jobs && CarriesWork(db.jobs[key], s) ==> key == InitialKey(db.jobs[key].kind, s))
    && FinalizedStatus(s) in db.outbox && db.outbox[FinalizedStatus(s)] == StatusRow(s)
  }

  ghost predicate PartConsistent(db: Db, p: PartId)
    requires p in db.parts
  {
    var part := db.parts[p];
    && (!part.finalized ==> part.timing.None? && part.blob.None? && !part.delivered)
    // an archive file has its row, or the journal to complete the row from
    && (p in db.published ==>
          if part.finalized then part.blob == Some(db.published[p])
          else p in db.journal && !part.deleted)
  }

  ghost predicate JournalConsistent(db: Db, p: PartId)
    requires p in db.journal && p in db.parts
  {
    var j, part := db.journal[p], db.parts[p];
    && j.session == part.session && j.session in db.sessions
    && (part.finalized ==> part.timing == Some(j.timing) && j.final.Some?)
    && (!part.finalized ==> !part.deleted)
    && (Live(db.sessions[j.session].state)
        || (FinalizeFailed(db.sessions[j.session]) && !part.finalized && p in db.published
            && (j.final.Some? ==> j.final == db.sessions[j.session].exact)))
  }
}
