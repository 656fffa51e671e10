/** One recovery pass on consistent durable state: what it establishes, and that a
    second pass changes nothing. */
module RecoveryProof {

  import opened Common
  import opened RecoveryModel

  lemma PublishedConsistent(db: Db)
    requires Consistent(db)
    ensures Consistent(ReconcilePublished(db))
    ensures forall p :: p in ReconcilePublished(db).parts ==>
      !Unreconciled(ReconcilePublished(db), p) || p !in db.published
  {
    var r := ReconcilePublished(db);
    forall p | p in r.parts ensures PartConsistent(r, p) {
      assert PartConsistent(db, p);
      if p in db.journal { assert JournalConsistent(db, p); }
    }
    forall p | p in r.journal ensures JournalConsistent(r, p) {
      assert JournalConsistent(db, p);
    }
    forall s, p, q | IsFinalJournal(r, s, p) && IsFinalJournal(r, s, q) ensures p == q {
      assert IsFinalJournal(db, s, p) && IsFinalJournal(db, s, q);
    }
    forall s | Unsettled(r, s) ensures NoWorkYet(r, s) { SameWork(db, r, s); }
  }

  /** What a session's work rows are depends on the jobs and the outbox only. */
  lemma SameWork(db: Db, r: Db, s: SessionId)
    requires r.jobs == db.jobs && r.outbox == db.outbox
    ensures NoWorkYet(r, s) <==> NoWorkYet(db, s)
    ensures HasFirstWork(r, s) <==> HasFirstWork(db, s)
  {
  }

  /** Nothing is left for phase 1: every archive file has its row, and no hopeless
      row is still open. */
  ghost predicate FilesSettled(db: Db) {
    && (forall p :: Unreconciled(db, p) ==> p !in db.published)
    && (forall p :: Unreconciled(db, p) ==> !TerminalMissing(db, p))
  }

  lemma PublishedSettlesFiles(db: Db)
    requires Consistent(db)
    ensures FilesSettled(ReconcilePublished(db))
  {
    var r := ReconcilePublished(db);
    forall p | Unreconciled(r, p) ensures p !in r.published && !TerminalMissing(r, p) {
      assert PartConsistent(db, p);
      assert Unreconciled(db, p) && r.parts[p] == db.parts[p];
      if p in db.journal { assert JournalConsistent(db, p); }
    }
  }

  lemma SettledFilesAreFixed(db: Db)
    requires Consistent(db) && FilesSettled(db)
    ensures ReconcilePublished(db) == db
  {
    var r := ReconcilePublished(db);
    forall p | p in db.parts ensures r.parts[p] == db.parts[p] {
    }
    assert r.parts == db.parts;
    assert r.journal == db.journal;
  }

  /** Inserted rows never overwrite one and only ever carry their own session. */
  lemma InsertedRows(db: Db, revived: set<SessionId>)
    ensures var jobs := WithInitialJobs(db.jobs, revived);
      && (forall key :: key in db.jobs ==> key in jobs && jobs[key] == db.jobs[key])
      && (forall key :: key in jobs && key !in db.jobs ==>
            key.InitialKey? && key.session in revived && key.kind in {DeliverAudio, Asr}
            && jobs[key] == InitialJob(key.kind, key.session))
      && (forall s :: s in revived ==> InitialKey(DeliverAudio, s) in jobs && InitialKey(Asr, s) in jobs)
    ensures var outbox := WithStatuses(db.outbox, revived);
      && (forall id :: id in db.outbox ==> id in outbox && outbox[id] == db.outbox[id])
      && (forall id :: id in outbox && id !in db.outbox ==>
            id.FinalizedStatus? && id.session in revived && outbox[id] == StatusRow(id.session))
      && (forall s :: s in revived ==> FinalizedStatus(s) in outbox)
  {
  }

  /** What is inserted for a session without work is its first work, once. */
  lemma FirstWorkInserted(db: Db, r: Db, revived: set<SessionId>, s: SessionId)
    requires s in revived && NoWorkYet(db, s)
    requires r.jobs == WithInitialJobs(db.jobs, revived) && r.outbox == WithStatuses(db.outbox, revived)
    ensures HasFirstWork(r, s)
  {
    InsertedRows(db, revived);
  }

  /** Nothing is inserted for any other session. */
  lemma OtherWorkStays(db: Db, r: Db, revived: set<SessionId>, s: SessionId)
    requires r.jobs == WithInitialJobs(db.jobs, revived) && r.outbox == WithStatuses(db.outbox, revived)
    ensures s !in revived && NoWorkYet(db, s) ==> NoWorkYet(r, s)
    ensures HasFirstWork(db, s) ==> HasFirstWork(r, s)
  {
    InsertedRows(db, revived);
  }

  // ------------------------------------------------------------------------ phase 2

  lemma FinalTimingUnique(db: Db, s: SessionId, p: PartId)
    requires Consistent(db) && IsFinalJournal(db, s, p)
    ensures FinalTimingOf(db, s) == db.journal[p].final
  {
    var q: PartId :| IsFinalJournal(db, s, q) && FinalTimingOf(db, s) == db.journal[q].final;
  }

  /** No session is left for phase 2, and no journal either. */
  ghost predicate SessionsSettled(db: Db) {
    db.journal == map[] && forall s :: !Stalled(db, s)
  }

  /** Every journal still there belongs to a stalled session. */
  lemma JournalsStalled(db: Db)
    requires Consistent(db) && FilesSettled(db)
    ensures forall p :: p in db.journal ==> Stalled(db, db.journal[p].session)
  {
    forall p | p in db.journal ensures Stalled(db, db.journal[p].session) {
      assert JournalConsistent(db, p);
      assert PartConsistent(db, p);
    }
  }

  lemma StalledSettlesSessions(db: Db)
    requires Consistent(db) && FilesSettled(db)
    ensures var r := ReconcileStalled(db);
      Consistent(r) && FilesSettled(r) && SessionsSettled(r)
  {
    JournalsStalled(db);
    assert ReconcileStalled(db).journal == map[];
    NoneStalled(db);
    StalledKeepsParts(db);
    StalledKeepsWork(db);
    StalledSessionRows(db);
  }

  lemma NoneStalled(db: Db)
    ensures var r := ReconcileStalled(db); forall s :: !Stalled(r, s)
  {
    var r := ReconcileStalled(db);
    forall s | s in r.sessions ensures !Stalled(r, s) {
      assert FinalizedParts(r, s) == FinalizedParts(db, s);
    }
  }

  lemma StalledSessionRows(db: Db)
    requires Consistent(db)
    ensures var r := ReconcileStalled(db); forall s :: s in r.sessions ==>
      && !Live(r.sessions[s].state) && (FinalizeFailed(r.sessions[s]) ==> r.sessions[s].exact.Some?)
  {
  }

  lemma StalledKeepsParts(db: Db)
    requires Consistent(db) && FilesSettled(db)
    ensures var r := ReconcileStalled(db);
      (forall p :: p in r.parts ==> PartConsistent(r, p)) && FilesSettled(r)
  {
    var r := ReconcileStalled(db);
    forall p | p in r.parts ensures PartConsistent(r, p) {
      assert PartConsistent(db, p);
      assert !Unreconciled(db, p) || p !in db.published;
    }
    forall p | Unreconciled(r, p) ensures !TerminalMissing(r, p) {
      assert Unreconciled(db, p) && !TerminalMissing(db, p);
      if p in db.journal { assert JournalConsistent(db, p); }
    }
  }

  lemma StalledKeepsWork(db: Db)
    requires Consistent(db)
    ensures var r := ReconcileStalled(db); forall s :: Unsettled(r, s) ==> NoWorkYet(r, s)
  {
    var revived := set t | t in db.sessions && Revived(db, t);
    StillUnsettled(db);
    UnsettledHaveNoWork(db, ReconcileStalled(db), revived);
  }

  lemma StillUnsettled(db: Db)
    ensures var r := ReconcileStalled(db); forall s :: Unsettled(r, s) ==> Unsettled(db, s) && !Revived(db, s)
  {
  }

  lemma UnsettledHaveNoWork(db: Db, r: Db, revived: set<SessionId>)
    requires forall s :: Unsettled(db, s) ==> NoWorkYet(db, s)
    requires forall s :: Unsettled(r, s) ==> Unsettled(db, s) && s !in revived
    requires r.jobs == WithInitialJobs(db.jobs, revived) && r.outbox == WithStatuses(db.outbox, revived)
    ensures forall s :: Unsettled(r, s) ==> NoWorkYet(r, s)
  {
    forall s | Unsettled(r, s) ensures NoWorkYet(r, s) {
      OtherWorkStays(db, r, revived, s);
    }
  }

  lemma SettledSessionsAreFixed(db: Db)
    requires forall s :: !Stalled(db, s)
    ensures ReconcileStalled(db) == db
  {
    var r := ReconcileStalled(db);
    assert (set s | s in db.sessions && Revived(db, s)) == {};
    assert r.sessions == db.sessions;
    assert r.journal == db.journal;
    NothingInserted(db.jobs, db.outbox);
  }

  lemma NothingInserted(jobs: map<JobKey, Job>, outbox: map<OutboxId, OutboxRow>)
    ensures WithInitialJobs(jobs, {}) == jobs && WithStatuses(outbox, {}) == outbox
  {
  }

  // ------------------------------------------------------------------------ phase 3

  /** Nothing is left for phase 3. */
  ghost predicate JobsSettled(db: Db) {
    forall s :: s in db.sessions ==> Assess(db, s) != Repair
  }

  /** What phases 1 and 2 look at. */
  ghost predicate SameRecordings(db: Db, r: Db) {
    && r.parts == db.parts && r.journal == db.journal && r.published == db.published
    && r.sessions.Keys == db.sessions.Keys
    && (forall s :: s in db.sessions ==> r.sessions[s] == db.sessions[s].(partCount := r.sessions[s].partCount))
    && (forall s :: Unsettled(db, s) && NoWorkYet(db, s) ==> NoWorkYet(r, s))
    && (forall s :: HasFirstWork(db, s) ==> HasFirstWork(r, s))
  }

  lemma SameRecordingsSettled(db: Db, r: Db)
    requires SameRecordings(db, r) && Consistent(db) && FilesSettled(db) && SessionsSettled(db)
    ensures Consistent(r) && FilesSettled(r) && SessionsSettled(r)
  {
    forall p | p in r.parts ensures PartConsistent(r, p) { assert PartConsistent(db, p); }
    forall s | s in r.sessions ensures !Stalled(r, s) {
      assert !Stalled(db, s);
      assert FinalizedParts(r, s) == FinalizedParts(db, s);
    }
    forall p | Unreconciled(r, p) ensures !TerminalMissing(r, p) {
      assert Unreconciled(db, p) && !TerminalMissing(db, p);
    }
  }

  lemma BlockedStaysBlocked(db: Db, r: Db, s: SessionId, repaired: set<SessionId>)
    requires s in db.sessions && s !in repaired && Assess(db, s) == Blocked
    requires r.parts == db.parts && r.transcripts == db.transcripts && s in r.sessions
    requires r.jobs == WithInitialJobs(db.jobs, repaired) && r.outbox == WithStatuses(db.outbox, repaired)
    ensures Assess(r, s) != Repair
  {
    InsertedRows(db, repaired);
    assert UsableParts(r, s) == UsableParts(db, s);
    if MisplacedJob(db, s) {
      var key :| key in db.jobs && IsMisplaced(key, db.jobs[key], s);
      assert key in r.jobs && r.jobs[key] == db.jobs[key];
    }
    if DownstreamProof(db, s) { DownstreamStays(db, r, s, repaired); }
  }

  lemma DownstreamStays(db: Db, r: Db, s: SessionId, repaired: set<SessionId>)
    requires s !in repaired && DownstreamProof(db, s)
    requires r.parts == db.parts && r.transcripts == db.transcripts
    requires r.jobs == WithInitialJobs(db.jobs, repaired) && r.outbox == WithStatuses(db.outbox, repaired)
    ensures DownstreamProof(r, s)
  {
    InsertedRows(db, repaired);
    if key :| key in db.jobs && db.jobs[key].kind == Downstream && db.jobs[key].payloadSession == Some(s) {
      assert key in r.jobs && r.jobs[key] == db.jobs[key];
    } else if id :| id in db.outbox && db.outbox[id].kind == Audio && db.outbox[id].session == Some(s) {
      assert id in r.outbox && r.outbox[id] == db.outbox[id];
    }
  }

  lemma RepairedIsComplete(db: Db, r: Db, s: SessionId, repaired: set<SessionId>)
    requires s in db.sessions && s in repaired && Assess(db, s) == Repair
    requires r.jobs == WithInitialJobs(db.jobs, repaired)
    ensures Assess(r, s) != Repair
  {
    InsertedRows(db, repaired);
  }

  lemma ProcessingKeepsRecordings(db: Db)
    ensures SameRecordings(db, ReconcileProcessing(db))
  {
    var r, repaired := ReconcileProcessing(db), set s | s in db.sessions && Assess(db, s) == Repair;
    NoWorkStays(db, r, repaired);
    FirstWorkStays(db, r, repaired);
  }

  lemma NoWorkStays(db: Db, r: Db, revived: set<SessionId>)
    requires forall s :: s in revived ==> !Unsettled(db, s)
    requires r.jobs == WithInitialJobs(db.jobs, revived) && r.outbox == WithStatuses(db.outbox, revived)
    ensures forall s :: Unsettled(db, s) && NoWorkYet(db, s) ==> NoWorkYet(r, s)
  {
    forall s | Unsettled(db, s) && NoWorkYet(db, s) ensures NoWorkYet(r, s) {
      OtherWorkStays(db, r, revived, s);
    }
  }

  lemma FirstWorkStays(db: Db, r: Db, revived: set<SessionId>)
    requires r.jobs == WithInitialJobs(db.jobs, revived) && r.outbox == WithStatuses(db.outbox, revived)
    ensures forall s :: HasFirstWork(db, s) ==> HasFirstWork(r, s)
  {
    forall s | HasFirstWork(db, s) ensures HasFirstWork(r, s) {
      OtherWorkStays(db, r, revived, s);
    }
  }

  lemma ProcessingSettlesJobs(db: Db)
    ensures JobsSettled(ReconcileProcessing(db))
  {
    var r, repaired := ReconcileProcessing(db), set s | s in db.sessions && Assess(db, s) == Repair;
    forall s | s in r.sessions ensures Assess(r, s) != Repair {
      if s in repaired {
        RepairedIsComplete(db, r, s, repaired);
      } else if Assess(db, s) == Blocked {
        BlockedStaysBlocked(db, r, s, repaired);
      } else {
        CompleteStaysComplete(db, r, s, repaired);
      }
    }
  }

  lemma CompleteStaysComplete(db: Db, r: Db, s: SessionId, repaired: set<SessionId>)
    requires s in db.sessions && s !in repaired && Assess(db, s) == Complete
    requires s in r.sessions && r.sessions[s] == db.sessions[s] && r.jobs == WithInitialJobs(db.jobs, repaired)
    ensures Assess(r, s) != Repair
  {
    InsertedRows(db, repaired);
  }

  lemma SettledJobsAreFixed(db: Db)
    requires JobsSettled(db)
    ensures ReconcileProcessing(db) == db
  {
    assert (set s | s in db.sessions && Assess(db, s) == Repair) == {};
    NothingInserted(db.jobs, db.outbox);
    assert ReconcileProcessing(db).sessions == db.sessions;
  }

  // ------------------------------------------------------------------ main results

  /** After one pass nothing is left to recover. */
  lemma RecoverSettles(db: Db)
    requires Consistent(db)
    ensures var r := Recover(db);
      Consistent(r) && FilesSettled(r) && SessionsSettled(r) && JobsSettled(r)
  {
    PublishedConsistent(db);
    PublishedSettlesFiles(db);
    StalledSettlesSessions(ReconcilePublished(db));
    ProcessingSettlesJobs(ReconcileStalled(ReconcilePublished(db)));
    ProcessingKeepsRecordings(ReconcileStalled(ReconcilePublished(db)));
    SameRecordingsSettled(ReconcileStalled(ReconcilePublished(db)), Recover(db));
  }

  /** A second pass changes nothing. */
  lemma RecoverIsIdempotent(db: Db)
    requires Consistent(db)
    ensures Recover(Recover(db)) == Recover(db)
  {
    RecoverSettles(db);
    SettledFilesAreFixed(Recover(db));
    SettledSessionsAreFixed(Recover(db));
    SettledJobsAreFixed(Recover(db));
  }

  /** Every archive file without a finalized row gets one, with the file's own bytes
      and checksum and with the timing that was journaled before publication. */
  lemma PublishedFilesRecovered(db: Db, p: PartId)
    requires Consistent(db) && p in db.published
    ensures var r := Recover(db);
      && p in r.parts && r.parts[p].finalized && r.parts[p].blob == Some(db.published[p])
      && (db.parts[p].finalized ==> r.parts[p] == db.parts[p])
      && (!db.parts[p].finalized ==>
            p in db.journal && r.parts[p].timing == Some(db.journal[p].timing))
  {
    assert PartConsistent(db, p);
    ProcessingSettlesJobs(ReconcileStalled(ReconcilePublished(db)));
  }

  /** What one pass makes of a stalled session, given the state in which its archive
      files have been found. */
  ghost predicate Resolved(found: Db, r: Db, s: SessionId) {
    && s in r.sessions
    && (if FinalizedParts(found, s) != {}
        then r.sessions[s].state == PROCESSING && r.sessions[s].reason == NoReason && HasFirstWork(r, s)
        else r.sessions[s].state == FAILED && r.sessions[s].reason == Interrupted && NoWorkYet(r, s))
    && forall p :: IsFinalJournal(found, s, p) ==> r.sessions[s].exact == found.journal[p].final
  }

  /** Every session a crash left open, and every one given up although audio has
      since been found, goes to processing with its exact timing, if it was journaled,
      and with exactly one job of each first kind; one without audio is failed. */
  lemma StalledSessionsResolved(db: Db, s: SessionId)
    requires Consistent(db) && Stalled(ReconcilePublished(db), s)
    ensures Resolved(ReconcilePublished(db), Recover(db), s)
    ensures forall p :: IsFinalJournal(ReconcilePublished(db), s, p) ==>
      p in db.journal && ReconcilePublished(db).journal[p] == db.journal[p]
  {
    var found := ReconcilePublished(db);
    PublishedConsistent(db);
    SessionResolved(found, s);
    ProcessingKeepsResolution(found, ReconcileStalled(found), s);
  }

  lemma SessionResolved(found: Db, s: SessionId)
    requires Consistent(found) && Stalled(found, s)
    ensures Resolved(found, ReconcileStalled(found), s)
  {
    forall p | IsFinalJournal(found, s, p) ensures FinalTimingOf(found, s) == found.journal[p].final {
      FinalTimingUnique(found, s, p);
    }
    var revived := set t | t in found.sessions && Revived(found, t);
    if s in revived {
      FirstWorkInserted(found, ReconcileStalled(found), revived, s);
    } else {
      OtherWorkStays(found, ReconcileStalled(found), revived, s);
    }
  }

  lemma ProcessingKeepsResolution(found: Db, db: Db, s: SessionId)
    requires Resolved(found, db, s)
    ensures Resolved(found, ReconcileProcessing(db), s)
  {
    var repaired := set t | t in db.sessions && Assess(db, t) == Repair;
    assert s !in repaired;
    OtherWorkStays(db, ReconcileProcessing(db), repaired, s);
  }
}
