/** What retention may delete (src/retention/policy.ts): the four lanes as predicates on
    stored facts, and applying a plan as a function on the database and the disk. */
module RetentionModel {

  import opened Common

  type SessionId = nat
  type PartId = nat
  type FileUid = nat
  type Path = nat

  datatype SessionState = DONE | REJECTED | OtherState

  datatype Rejection = NoRejection | InsufficientSpeech | AsrEmpty | InsufficientWords | OtherRejection

  datatype SessionRow = SessionRow(state: SessionState, endedAt: Option<int>, rejection: Rejection)

  datatype PartRow = PartRow(
    session: SessionId, path: Path, bytes: Option<nat>, finalized: bool, sha256: Option<nat>,
    delivered: bool, deliveredAt: Option<int>, deletedAt: Option<int>)

  datatype FileState = DeliveredFile | RejectedFile | FailedFile | OtherFile

  datatype FileRow = FileRow(
    state: FileState, quarantinePath: Option<Path>, normalizedPath: Option<Path>, actualBytes: Option<nat>,
    deliveredAt: Option<int>, updatedAt: int, deletedAt: Option<int>)

  datatype OutboxKind = TranscriptMessage | AudioMessage | OtherMessage

  datatype OutboxState = Pending | Sending | Sent | Dead

  datatype DeliveryId =
    | WholeAudio(part: PartId) | SplitAudio(part: PartId, suffix: nat)
    | IncomingReply(file: FileUid, suffix: nat) | OtherDelivery(id: nat)

  datatype OutboxRow = OutboxRow(kind: OutboxKind, session: Option<SessionId>, state: OutboxState)

  datatype JobKind = DeliverAudioJob | IncomingAudioJob | OtherJob

  datatype JobState = JobPending | JobLeased | JobDone | JobDead

  /** `deliverAudio`: the key is `deliver-audio:` and the session; otherwise any key that
      ends with it. */
  datatype JobKey =
    | DeliverAudioKey(session: SessionId)
    | SessionKey(prefix: nat, session: SessionId)
    | OtherKey(id: nat)

  /** `file` is absent when the payload names none. */
  datatype JobRow = JobRow(kind: JobKind, state: JobState, file: Option<FileUid>)

  datatype Db = Db(
    sessions: map<SessionId, SessionRow>, parts: map<PartId, PartRow>, files: map<FileUid, FileRow>,
    outbox: map<DeliveryId, OutboxRow>, jobs: map<JobKey, JobRow>,
    currentRevisions: set<SessionId>, incomingRevisions: set<FileUid>)

  datatype Config = Config(
    sessionAudioHours: nat, rejectedSessionHours: nat, incomingAudioHours: nat, quarantineHours: nat)

  /** What `planRetention` remembers of a plan it made. */
  datatype Proof = Proof(config: Config, now: int)

  function HoursAgo(hours: nat, now: int): int { now - hours * 3_600_000 }

  // ------------------------------------------------------------------------- lanes

  predicate By(at: Option<int>, cutoff: int) { at.Some? && at.value <= cutoff }

  predicate HasSent(db: Db, s: SessionId, kind: OutboxKind) {
    exists id :: id in db.outbox && db.outbox[id] == OutboxRow(kind, Some(s), Sent)
  }

  predicate StillSending(db: Db, s: SessionId) {
    exists id ::
      && id in db.outbox && db.outbox[id].session == Some(s)
      && (db.outbox[id].state == Pending || db.outbox[id].state == Sending)
  }

  predicate ActiveJob(db: Db, s: SessionId) {
    exists key :: key in db.jobs && !key.OtherKey? && key.session == s
      && (db.jobs[key].state == JobPending || db.jobs[key].state == JobLeased)
  }

  /** A finished session whose transcript was sent, nothing of it under way, and this
      part's own delivery long enough ago. */
  predicate SessionAudioEligible(db: Db, cutoff: int, p: PartId) {
    && p in db.parts && db.parts[p].session in db.sessions
    && var part, s := db.parts[p], db.parts[p].session;
    && part.deletedAt.None? && part.finalized && part.sha256.Some? && part.delivered && By(part.deliveredAt, cutoff)
    && db.sessions[s].state == DONE && db.sessions[s].endedAt.Some?
    && s in db.currentRevisions && HasSent(db, s, TranscriptMessage)
    && !StillSending(db, s) && !ActiveJob(db, s)
  }

  predicate UnsentAudio(db: Db, s: SessionId) {
    exists id ::
      && id in db.outbox && db.outbox[id].session == Some(s) && db.outbox[id].kind == AudioMessage
      && db.outbox[id].state != Sent
  }

  predicate PartSent(db: Db, s: SessionId, p: PartId) {
    exists id :: id in db.outbox && (id.WholeAudio? || id.SplitAudio?) && id.part == p
      && db.outbox[id] == OutboxRow(AudioMessage, Some(s), Sent)
  }

  predicate AudioJobDone(db: Db, s: SessionId) {
    var key := DeliverAudioKey(s);
    key in db.jobs && db.jobs[key].kind == DeliverAudioJob && db.jobs[key].state == JobDone
  }

  /** Rejected before delivery and old, or rejected after it with the audio sent. */
  predicate RejectedAudioEligible(db: Db, rejectedCutoff: int, audioCutoff: int, p: PartId) {
    && p in db.parts && db.parts[p].session in db.sessions
    && var part, s := db.parts[p], db.parts[p].session;
    && part.deletedAt.None? && db.sessions[s].state == REJECTED && part.finalized && part.sha256.Some?
    && (if db.sessions[s].rejection == InsufficientSpeech then By(db.sessions[s].endedAt, rejectedCutoff)
        else
          && (db.sessions[s].rejection == AsrEmpty || db.sessions[s].rejection == InsufficientWords)
          && part.delivered && By(part.deliveredAt, audioCutoff) && PartSent(db, s, p) && AudioJobDone(db, s))
    && !UnsentAudio(db, s) && !ActiveJob(db, s)
  }

  /** A job that may still need the file, or whose payload does not say which. */
  predicate RecoverableIncomingJob(db: Db, f: FileUid) {
    exists key :: key in db.jobs && db.jobs[key].kind == IncomingAudioJob && db.jobs[key].state != JobDone
      && (db.jobs[key].file.None? || db.jobs[key].file == Some(f))
  }

  predicate ReplyUnsent(db: Db, f: FileUid) {
    exists id :: id in db.outbox && id.IncomingReply? && id.file == f
      && (db.outbox[id].state == Pending || db.outbox[id].state == Sending)
  }

  predicate IncomingEligible(db: Db, cutoff: int, f: FileUid) {
    && f in db.files && db.files[f].deletedAt.None? && db.files[f].state == DeliveredFile
    && By(db.files[f].deliveredAt, cutoff) && f in db.incomingRevisions
    && !RecoverableIncomingJob(db, f) && !ReplyUnsent(db, f)
  }

  predicate QuarantineEligible(db: Db, cutoff: int, f: FileUid) {
    && f in db.files && db.files[f].deletedAt.None?
    && (db.files[f].state == RejectedFile || db.files[f].state == FailedFile)
    && db.files[f].quarantinePath.Some? && db.files[f].updatedAt <= cutoff && !RecoverableIncomingJob(db, f)
  }

  // ---------------------------------------------------------------------- candidates

  datatype Kind = SessionAudio | RejectedSessionAudio | IncomingAudio | Quarantine

  datatype Key = Key(kind: Kind, id: nat)

  datatype Reason =
    | DeliveryConfirmed(hours: nat) | RejectedUndelivered(hours: nat) | DeliveredRejected(hours: nat)
    | TranscriptDelivered(hours: nat) | RejectedLongAgo(hours: nat)

  datatype Candidate = Candidate(key: Key, path: Path, bytes: nat, reason: Reason)

  predicate Eligible(db: Db, proof: Proof, key: Key) {
    var c := proof.config;
    match key.kind
    case SessionAudio => SessionAudioEligible(db, HoursAgo(c.sessionAudioHours, proof.now), key.id)
    case RejectedSessionAudio =>
      RejectedAudioEligible(
        db, HoursAgo(c.rejectedSessionHours, proof.now), HoursAgo(c.sessionAudioHours, proof.now), key.id)
    case IncomingAudio => IncomingEligible(db, HoursAgo(c.incomingAudioHours, proof.now), key.id)
    case Quarantine => QuarantineEligible(db, HoursAgo(c.quarantineHours, proof.now), key.id)
  }

  function ReasonOf(db: Db, proof: Proof, key: Key): Reason {
    var c := proof.config;
    match key.kind
    case SessionAudio => DeliveryConfirmed(c.sessionAudioHours)
    case RejectedSessionAudio =>
      if key.id in db.parts && db.parts[key.id].session in db.sessions
         && db.sessions[db.parts[key.id].session].rejection == InsufficientSpeech
      then RejectedUndelivered(c.rejectedSessionHours) else DeliveredRejected(c.sessionAudioHours)
    case IncomingAudio => TranscriptDelivered(c.incomingAudioHours)
    case Quarantine => RejectedLongAgo(c.quarantineHours)
  }

  function OrZero(n: Option<nat>): nat { if n.Some? then n.value else 0 }

  function FileCandidates(key: Key, paths: seq<Option<Path>>, bytes: nat, reason: Reason): seq<Candidate> {
    if paths == [] then []
    else
      FileCandidates(key, paths[..|paths| - 1], bytes, reason) +
      if paths[|paths| - 1].Some? then [Candidate(key, paths[|paths| - 1].value, bytes, reason)] else []
  }

  /** The scoped plan: what is eligible for one row of one lane right now. */
  function GroupOf(db: Db, proof: Proof, key: Key): seq<Candidate> {
    if !Eligible(db, proof, key) then []
    else if key.kind == SessionAudio || key.kind == RejectedSessionAudio then
      [Candidate(key, db.parts[key.id].path, OrZero(db.parts[key.id].bytes), ReasonOf(db, proof, key))]
    else
      var row := db.files[key.id];
      FileCandidates(key, [row.quarantinePath, row.normalizedPath], OrZero(row.actualBytes), ReasonOf(db, proof, key))
  }

  // -------------------------------------------------------------------------- applying

  function Insert(c: Candidate, sorted: seq<Candidate>): seq<Candidate> {
    if sorted == [] then [c]
    else if sorted[|sorted| - 1].path <= c.path then sorted + [c]
    else Insert(c, sorted[..|sorted| - 1]) + [sorted[|sorted| - 1]]
  }

  /** A stable sort. */
  function ByPath(group: seq<Candidate>): seq<Candidate> {
    if group == [] then [] else Insert(group[|group| - 1], ByPath(group[..|group| - 1]))
  }

  /** `sameCandidateGroup`. */
  predicate SameGroup(planned: seq<Candidate>, current: seq<Candidate>) {
    |planned| == |current| && ByPath(planned) == ByPath(current)
  }

  predicate StillEligible(db: Db, proof: Proof, group: seq<Candidate>) {
    && group != [] && (forall k :: 0 <= k < |group| ==> group[k].key == group[0].key)
    && SameGroup(group, GroupOf(db, proof, group[0].key))
  }

  datatype World = World(db: Db, disk: set<Path>)

  /** What happens around one group: what was committed before its lock was taken, which
      files cannot be removed, whether the commit fails, and the clock. */
  datatype Env = Env(meanwhile: Option<Db>, stuck: set<Path>, commitFails: bool, at: int)

  datatype Outcome = Deleted(bytes: nat) | Stale | Failed(path: Path)

  function Paths(group: seq<Candidate>): set<Path> { set k | 0 <= k < |group| :: group[k].path }

  /** The first file that cannot be removed. */
  function FirstStuck(group: seq<Candidate>, stuck: set<Path>, k: nat): (n: nat)
    requires k <= |group|
    ensures k <= n <= |group| && (n < |group| ==> group[n].path in stuck)
    ensures forall j :: k <= j < n ==> group[j].path !in stuck
    decreases |group| - k
  {
    if k == |group| || group[k].path in stuck then k else FirstStuck(group, stuck, k + 1)
  }

  function MarkDeleted(db: Db, key: Key, at: int): Db {
    if key.kind == SessionAudio || key.kind == RejectedSessionAudio then
      if key.id in db.parts then db.(parts := db.parts[key.id := db.parts[key.id].(deletedAt := Some(at))]) else db
    else
      if key.id in db.files
      then db.(files := db.files[key.id := db.files[key.id].(deletedAt := Some(at), updatedAt := at)]) else db
  }

  function TotalBytes(group: seq<Candidate>): nat {
    if group == [] then 0 else TotalBytes(group[..|group| - 1]) + group[|group| - 1].bytes
  }

  /** The database under the group's lock. */
  function Locked(w: World, env: Env): World { if env.meanwhile.Some? then w.(db := env.meanwhile.value) else w }

  function ApplyGroup(w: World, proof: Proof, group: seq<Candidate>, env: Env): (World, Outcome) {
    var locked := Locked(w, env);
    if !StillEligible(locked.db, proof, group) then (locked, Stale)
    else
      var n := FirstStuck(group, env.stuck, 0);
      var unlinked := locked.(disk := locked.disk - Paths(group[..n]));
      if n < |group| then (unlinked, Failed(group[n].path))
      else if env.commitFails then (unlinked, Failed(group[|group| - 1].path))
      else (unlinked.(db := MarkDeleted(locked.db, group[0].key, env.at)), Deleted(TotalBytes(group)))
  }

  datatype ApplyError = StalePlan(path: Path) | CannotRemove(path: Path)

  datatype ApplyResult = ApplyResult(deleted: nat, freedBytes: nat, errors: seq<ApplyError>)

  function StaleErrors(group: seq<Candidate>): seq<ApplyError> {
    seq(|group|, k requires 0 <= k < |group| => StalePlan(group[k].path))
  }

  function Counted(r: ApplyResult, group: seq<Candidate>, outcome: Outcome): ApplyResult {
    match outcome
    case Deleted(bytes) => r.(deleted := r.deleted + |group|, freedBytes := r.freedBytes + bytes)
    case Stale => r.(errors := r.errors + StaleErrors(group))
    case Failed(path) => r.(errors := r.errors + [CannotRemove(path)])
  }

  /** One group of a pass. */
  predicate Applied(w: World, proof: Proof, group: seq<Candidate>, env: Env, outcome: Outcome, next: World) {
    ApplyGroup(w, proof, group, env) == (next, outcome)
  }

  /** A pass over the groups of a plan: the worlds it goes through and what each group
      came to. */
  ghost predicate Pass(
    worlds: seq<World>, proof: Proof, groups: seq<seq<Candidate>>, envs: seq<Env>, outcomes: seq<Outcome>)
  {
    && |outcomes| == |groups| == |envs| && |worlds| == |groups| + 1
    && forall k: nat :: k < |groups| ==> StepOf(worlds, proof, groups, envs, outcomes, k)
  }

  ghost predicate StepOf(
    worlds: seq<World>, proof: Proof, groups: seq<seq<Candidate>>, envs: seq<Env>, outcomes: seq<Outcome>, k: nat)
    requires k < |groups| == |envs| == |outcomes| && |worlds| == |groups| + 1
  {
    Applied(worlds[k], proof, groups[k], envs[k], outcomes[k], worlds[k + 1])
  }

  function Tally(groups: seq<seq<Candidate>>, outcomes: seq<Outcome>): ApplyResult
    requires |groups| == |outcomes|
  {
    if groups == [] then ApplyResult(0, 0, [])
    else
      var last := |groups| - 1;
      Counted(Tally(groups[..last], outcomes[..last]), groups[last], outcomes[last])
  }
}
