/** Recovery one transaction at a time (src/capture/recovery.ts): a crash between any
    two of them leaves consistent state, and the next pass ends where the interrupted
    one would have. */
module RecoverySteps {

  import opened RecoveryModel
  import opened RecoveryProof

  // ----------------------------------------------------------------- phase 1

  /** One row of phase 1: the rest of the phase is not affected. */
  lemma PartStep(db: Db, p: PartId)
    requires Consistent(db) && Unreconciled(db, p)
    ensures Consistent(ReconcileOnePart(db, p))
    ensures ReconcilePublished(ReconcileOnePart(db, p)) == ReconcilePublished(db)
  {
    PartStepConsistent(db, p);
    PartStepRows(db, p);
    PartStepJournal(db, p);
  }

  lemma PartStepConsistent(db: Db, p: PartId)
    requires Consistent(db) && Unreconciled(db, p)
    ensures Consistent(ReconcileOnePart(db, p))
  {
    var r := ReconcileOnePart(db, p);
    forall q | q in r.parts ensures PartConsistent(r, q) {
      assert PartConsistent(db, q);
      if q in db.journal { assert JournalConsistent(db, q); }
    }
    forall q | q in r.journal ensures JournalConsistent(r, q) { assert JournalConsistent(db, q); }
    forall s, q | IsFinalJournal(r, s, q) ensures IsFinalJournal(db, s, q) {
    }
    forall s | Unsettled(r, s) ensures NoWorkYet(r, s) { SameWork(db, r, s); }
  }

  /** A row is settled by its own transaction and left alone by every other. */
  lemma PartStepRow(db: Db, p: PartId, q: PartId)
    requires Consistent(db) && Unreconciled(db, p) && q in db.parts
    ensures RecoveredPart(ReconcileOnePart(db, p), q) == RecoveredPart(db, q)
    ensures q != p ==> (Unreconciled(ReconcileOnePart(db, p), q) <==> Unreconciled(db, q))
  {
    assert PartConsistent(db, p);
    if p in db.journal { assert JournalConsistent(db, p); }
  }

  lemma PartStepRows(db: Db, p: PartId)
    requires Consistent(db) && Unreconciled(db, p)
    ensures ReconcilePublished(ReconcileOnePart(db, p)).parts == ReconcilePublished(db).parts
  {
    forall q | q in db.parts
      ensures RecoveredPart(ReconcileOnePart(db, p), q) == RecoveredPart(db, q)
    {
      PartStepRow(db, p, q);
    }
  }

  lemma PartStepJournal(db: Db, p: PartId)
    requires Consistent(db) && Unreconciled(db, p)
    ensures ReconcilePublished(ReconcileOnePart(db, p)).journal == ReconcilePublished(db).journal
  {
    forall q | q in ReconcileOnePart(db, p).journal
      ensures ConsumesJournal(ReconcileOnePart(db, p), q) <==> ConsumesJournal(db, q)
    {
      PartStepConsumes(db, p, q);
    }
  }

  lemma PartStepConsumes(db: Db, p: PartId, q: PartId)
    requires Consistent(db) && Unreconciled(db, p) && q in ReconcileOnePart(db, p).journal
    ensures ConsumesJournal(ReconcileOnePart(db, p), q) <==> ConsumesJournal(db, q)
  {
    assert PartConsistent(db, p);
  }

  /** Nothing is left to do for this row. */
  predicate RowDone(db: Db, p: PartId) {
    Unreconciled(db, p) ==> p !in db.published && !TerminalMissing(db, p)
  }

  lemma PartStepDone(db: Db, p: PartId, q: PartId)
    requires Consistent(db) && Unreconciled(db, p)
    ensures RowDone(ReconcileOnePart(db, p), p)
    ensures RowDone(db, q) ==> RowDone(ReconcileOnePart(db, p), q)
  {
    assert PartConsistent(db, p);
  }

  // ----------------------------------------------------------------- phase 2

  /** One session of phase 2. */
  lemma SessionStep(db: Db, s: SessionId)
    requires Consistent(db) && FilesSettled(db) && Stalled(db, s)
    ensures var r := ReconcileOneSession(db, s);
      Consistent(r) && FilesSettled(r) && ReconcileStalled(r) == ReconcileStalled(db)
    ensures forall t :: Stalled(ReconcileOneSession(db, s), t) <==> Stalled(db, t) && t != s
  {
    SessionStepFiles(db, s);
    SessionStepWork(db, s);
    forall t
      ensures Stalled(ReconcileOneSession(db, s), t) <==> Stalled(db, t) && t != s
    {
      SessionStepOther(db, s, t);
    }
    SessionStepSessions(db, s);
    SessionStepTables(db, s);
  }

  lemma SessionStepFiles(db: Db, s: SessionId)
    requires Consistent(db) && FilesSettled(db) && Stalled(db, s)
    ensures var r := ReconcileOneSession(db, s);
      && (forall p :: p in r.parts ==> r.parts[p].session in r.sessions && PartConsistent(r, p))
      && (forall p :: p in r.journal ==> p in r.parts && JournalConsistent(r, p))
      && (forall t, p :: IsFinalJournal(r, t, p) ==> IsFinalJournal(db, t, p))
      && FilesSettled(r)
  {
    var r := ReconcileOneSession(db, s);
    forall p | p in r.parts ensures PartConsistent(r, p) {
      assert PartConsistent(db, p);
      assert !Unreconciled(db, p) || p !in db.published;
    }
    forall p | p in r.journal ensures JournalConsistent(r, p) { assert JournalConsistent(db, p); }
    forall p | Unreconciled(r, p) ensures !TerminalMissing(r, p) {
      assert Unreconciled(db, p) && !TerminalMissing(db, p);
    }
  }

  lemma SessionStepWork(db: Db, s: SessionId)
    requires Consistent(db) && Stalled(db, s)
    ensures var r := ReconcileOneSession(db, s); forall t :: Unsettled(r, t) ==> NoWorkYet(r, t)
  {
    var r, revived := ReconcileOneSession(db, s), if Revived(db, s) then {s} else {};
    forall t | Unsettled(r, t) ensures Unsettled(db, t) && t !in revived {
    }
    UnsettledHaveNoWork(db, r, revived);
  }

  /** What one session's transaction means for another session. */
  lemma SessionStepOther(db: Db, s: SessionId, t: SessionId)
    requires Consistent(db) && Stalled(db, s)
    ensures var r := ReconcileOneSession(db, s);
      && (Stalled(r, t) <==> Stalled(db, t) && t != s)
      && (Revived(r, t) <==> Revived(db, t) && t != s)
      && (t in db.sessions ==> RecoveredSession(r, t) == RecoveredSession(db, t))
  {
    var r := ReconcileOneSession(db, s);
    assert FinalizedParts(r, t) == FinalizedParts(db, t);
    if t in db.sessions && t != s { SameFinalTiming(db, r, t); }
  }

  lemma SameFinalTiming(db: Db, r: Db, t: SessionId)
    requires Consistent(db) && r.parts == db.parts
    requires forall p :: IsFinalJournal(r, t, p) <==> IsFinalJournal(db, t, p)
    requires forall p :: IsFinalJournal(r, t, p) ==> r.journal[p] == db.journal[p]
    ensures FinalTimingOf(r, t) == FinalTimingOf(db, t)
  {
    if p: PartId :| IsFinalJournal(r, t, p) {
      var q: PartId :| IsFinalJournal(r, t, q) && FinalTimingOf(r, t) == r.journal[q].final;
      FinalTimingUnique(db, t, q);
    }
  }

  lemma SessionStepSessions(db: Db, s: SessionId)
    requires Consistent(db) && Stalled(db, s)
    ensures ReconcileStalled(ReconcileOneSession(db, s)).sessions == ReconcileStalled(db).sessions
  {
    var r := ReconcileOneSession(db, s);
    forall t | t in db.sessions
      ensures RecoveredSession(r, t) == RecoveredSession(db, t)
    {
      SessionStepOther(db, s, t);
    }
  }

  ghost function RevivedSessions(db: Db): set<SessionId> { set t | t in db.sessions && Revived(db, t) }

  lemma SessionStepRevived(db: Db, s: SessionId)
    requires Consistent(db) && Stalled(db, s)
    ensures (if Revived(db, s) then {s} else {}) + RevivedSessions(ReconcileOneSession(db, s)) == RevivedSessions(db)
  {
    forall t ensures Revived(ReconcileOneSession(db, s), t) <==> Revived(db, t) && t != s {
      SessionStepOther(db, s, t);
    }
  }

  lemma SessionStepJournal(db: Db, s: SessionId)
    requires Consistent(db) && Stalled(db, s)
    ensures ReconcileStalled(ReconcileOneSession(db, s)).journal == ReconcileStalled(db).journal
  {
    forall t ensures Stalled(ReconcileOneSession(db, s), t) <==> Stalled(db, t) && t != s {
      SessionStepOther(db, s, t);
    }
  }

  lemma SessionStepTables(db: Db, s: SessionId)
    requires Consistent(db) && Stalled(db, s)
    ensures var r, next := ReconcileStalled(db), ReconcileStalled(ReconcileOneSession(db, s));
      next.journal == r.journal && next.jobs == r.jobs && next.outbox == r.outbox
  {
    SessionStepJournal(db, s);
    SessionStepRevived(db, s);
    JobsTwice(db.jobs, if Revived(db, s) then {s} else {}, RevivedSessions(ReconcileOneSession(db, s)));
    StatusesTwice(db.outbox, if Revived(db, s) then {s} else {}, RevivedSessions(ReconcileOneSession(db, s)));
  }

  lemma JobRows(jobs: map<JobKey, Job>, a: set<SessionId>)
    ensures var r := WithInitialJobs(jobs, a);
      && (forall key :: key in r <==>
            key in jobs || (key.InitialKey? && key.session in a && (key.kind == DeliverAudio || key.kind == Asr)))
      && (forall key :: key in r ==> r[key] == if key in jobs then jobs[key] else InitialJob(key.kind, key.session))
  {
  }

  lemma JobsTwice(jobs: map<JobKey, Job>, a: set<SessionId>, b: set<SessionId>)
    ensures WithInitialJobs(WithInitialJobs(jobs, a), b) == WithInitialJobs(jobs, a + b)
  {
    var twice, once := WithInitialJobs(WithInitialJobs(jobs, a), b), WithInitialJobs(jobs, a + b);
    JobRows(jobs, a);
    JobRows(WithInitialJobs(jobs, a), b);
    JobRows(jobs, a + b);
    assert twice.Keys == once.Keys;
    assert forall key :: key in once ==> twice[key] == once[key];
  }

  lemma StatusesTwice(outbox: map<OutboxId, OutboxRow>, a: set<SessionId>, b: set<SessionId>)
    ensures WithStatuses(WithStatuses(outbox, a), b) == WithStatuses(outbox, a + b)
  {
    var twice, once := WithStatuses(WithStatuses(outbox, a), b), WithStatuses(outbox, a + b);
    assert twice.Keys == once.Keys;
    assert forall id :: id in once ==> twice[id] == once[id];
  }

  // ----------------------------------------------------------------- phase 3

  /** One session of phase 3. */
  lemma RepairStep(db: Db, s: SessionId)
    requires s in db.sessions && Assess(db, s) == Repair
    ensures SameRecordings(db, RepairSession(db, s))
    ensures ReconcileProcessing(RepairSession(db, s)) == ReconcileProcessing(db)
    ensures Assess(RepairSession(db, s), s) == Complete
  {
    RepairCompletes(db, s);
    RepairKeepsRecordings(db, s);
    RepairStepSessions(db, s);
    RepairStepTables(db, s);
  }

  lemma RepairKeepsRecordings(db: Db, s: SessionId)
    requires s in db.sessions && Assess(db, s) == Repair
    ensures SameRecordings(db, RepairSession(db, s))
  {
    NoWorkStays(db, RepairSession(db, s), {s});
    FirstWorkStays(db, RepairSession(db, s), {s});
  }

  lemma RepairCompletes(db: Db, s: SessionId)
    requires s in db.sessions && Assess(db, s) == Repair
    ensures Assess(RepairSession(db, s), s) == Complete
  {
    JobRows(db.jobs, {s});
    SamePartsUsable(db, RepairSession(db, s), s);
  }

  function Repairable(db: Db): set<SessionId> { set t | t in db.sessions && Assess(db, t) == Repair }

  lemma OneRepairLess(db: Db, s: SessionId)
    requires s in db.sessions && Assess(db, s) == Repair
    ensures {s} + Repairable(RepairSession(db, s)) == Repairable(db) && s !in Repairable(RepairSession(db, s))
  {
    RepairCompletes(db, s);
    forall t | t != s ensures Assess(RepairSession(db, s), t) == Assess(db, t) { AssessUnaffected(db, s, t); }
  }

  lemma RepairStepSessions(db: Db, s: SessionId)
    requires s in db.sessions && Assess(db, s) == Repair
    ensures ReconcileProcessing(RepairSession(db, s)).sessions == ReconcileProcessing(db).sessions
  {
    var r := RepairSession(db, s);
    OneRepairLess(db, s);
    RepairedCounts(db, s, r, Repairable(r));
  }

  /** The sessions after phase 3, given which of them it repairs. */
  function Counted(db: Db, repaired: set<SessionId>): map<SessionId, Session> {
    map t | t in db.sessions ::
      if t in repaired then db.sessions[t].(partCount := |UsableParts(db, t)|) else db.sessions[t]
  }

  lemma RepairedCounts(db: Db, s: SessionId, r: Db, rest: set<SessionId>)
    requires s in db.sessions && s !in rest && r.parts == db.parts
    requires r.sessions == db.sessions[s := db.sessions[s].(partCount := |UsableParts(db, s)|)]
    ensures Counted(r, rest) == Counted(db, {s} + rest)
  {
    forall t ensures UsableParts(r, t) == UsableParts(db, t) { SamePartsUsable(db, r, t); }
  }

  lemma RepairStepTables(db: Db, s: SessionId)
    requires s in db.sessions && Assess(db, s) == Repair
    ensures var r, next := ReconcileProcessing(db), ReconcileProcessing(RepairSession(db, s));
      next.jobs == r.jobs && next.outbox == r.outbox
  {
    OneRepairLess(db, s);
    JobsTwice(db.jobs, {s}, Repairable(RepairSession(db, s)));
    StatusesTwice(db.outbox, {s}, Repairable(RepairSession(db, s)));
  }

  lemma SamePartsUsable(before: Db, now: Db, s: SessionId)
    requires now.parts == before.parts
    ensures UsableParts(now, s) == UsableParts(before, s)
  {
  }

  /** Work inserted for one session does not change another session's assessment. */
  lemma AssessUnaffected(db: Db, s: SessionId, t: SessionId)
    requires s in db.sessions && t != s
    ensures Assess(RepairSession(db, s), t) == Assess(db, t)
  {
    var r := RepairSession(db, s);
    SamePartsUsable(db, r, t);
    JobRows(db.jobs, {s});
    MisplacedUnaffected(db, {s}, t, r);
    DownstreamUnaffected(db, {s}, t, r);
  }

  lemma MisplacedUnaffected(before: Db, repaired: set<SessionId>, s: SessionId, now: Db)
    requires s !in repaired && now.jobs == WithInitialJobs(before.jobs, repaired)
    ensures MisplacedJob(now, s) <==> MisplacedJob(before, s)
  {
    JobRows(before.jobs, repaired);
    if key :| key in before.jobs && IsMisplaced(key, before.jobs[key], s) {
      assert key in now.jobs && now.jobs[key] == before.jobs[key];
    }
  }

  lemma DownstreamUnaffected(before: Db, repaired: set<SessionId>, s: SessionId, now: Db)
    requires s !in repaired && now.parts == before.parts && now.transcripts == before.transcripts
    requires now.jobs == WithInitialJobs(before.jobs, repaired) && now.outbox == WithStatuses(before.outbox, repaired)
    ensures DownstreamProof(now, s) <==> DownstreamProof(before, s)
  {
    JobRows(before.jobs, repaired);
    InsertedRows(before, repaired);
    if DownstreamProof(before, s) { DownstreamStays(before, now, s, repaired); }
  }

  // -------------------------------------------------------------- an interrupted pass

  datatype Transaction = OnePart(p: PartId) | OneSession(s: SessionId) | OneRepair(s: SessionId)

  /** A phase begins when the one before it has finished. */
  ghost predicate Next(db: Db, e: Transaction) {
    match e
    case OnePart(p) => Unreconciled(db, p)
    case OneSession(s) => FilesSettled(db) && Stalled(db, s)
    case OneRepair(s) => FilesSettled(db) && SessionsSettled(db) && s in db.sessions && Assess(db, s) == Repair
  }

  ghost function Commit(db: Db, e: Transaction): Db
    requires Next(db, e)
  {
    match e
    case OnePart(p) => ReconcileOnePart(db, p)
    case OneSession(s) => ReconcileOneSession(db, s)
    case OneRepair(s) => RepairSession(db, s)
  }

  /** Cut after any transaction, a pass leaves consistent state from which the next
      pass arrives where the uninterrupted one would have. */
  lemma CommitResumes(db: Db, e: Transaction)
    requires Consistent(db) && Next(db, e)
    ensures Consistent(Commit(db, e)) && Recover(Commit(db, e)) == Recover(db)
  {
    match e
    case OnePart(p) => PartStep(db, p);
    case OneSession(s) =>
      SessionStep(db, s);
      SettledFilesAreFixed(db);
      SettledFilesAreFixed(Commit(db, e));
    case OneRepair(s) =>
      RepairStep(db, s);
      SameRecordingsSettled(db, Commit(db, e));
      SettledFilesAreFixed(db);
      SettledFilesAreFixed(Commit(db, e));
      SettledSessionsAreFixed(db);
      SettledSessionsAreFixed(Commit(db, e));
  }
}
