/** The recovery pass as it runs (src/capture/recovery.ts): loops over rows that
    update the tables one transaction at a time, proved to have exactly the effect
    that `RecoveryModel` states row by row, in whatever order the rows come. A method
    answers false where the source throws, and then its transaction has changed nothing. */
module RecoveryStoreClass {

  import opened Common
  import opened RecoveryModel
  import opened RecoveryProof
  import opened RecoverySteps

  class Store {
    var sessions: map<SessionId, Session>
    var parts: map<PartId, Part>
    var journal: map<PartId, Journal>
    var jobs: map<JobKey, Job>
    var outbox: map<OutboxId, OutboxRow>
    var transcripts: set<SessionId>
    var published: map<PartId, Blob>

    constructor (db: Db)
      ensures View() == db
    {
      sessions, parts, journal, jobs := db.sessions, db.parts, db.journal, db.jobs;
      outbox, transcripts, published := db.outbox, db.transcripts, db.published;
    }

    function View(): Db
      reads this
    {
      Db(sessions, parts, journal, jobs, outbox, transcripts, published)
    }

    // ----------------------------------------------------------------- phase 1

    /** The row and the journal of a published part, in one transaction. */
    method RecoverPublishedPart(p: PartId, blob: Blob) returns (ok: bool)
      requires p in parts
      modifies this`parts, this`journal
      ensures !ok <==> PartConflicts(old(View()), p, blob)
      ensures parts.Keys == old(parts.Keys) && (!ok ==> View() == old(View()))
      ensures ok && old(parts)[p].finalized ==> parts == old(parts)
      ensures ok && Unreconciled(old(View()), p) && p in published && blob == published[p] ==>
        View() == ReconcileOnePart(old(View()), p)
    {
      if p in journal && journal[p].session != parts[p].session { return false; }
      var exact := if p in journal then Some(journal[p]) else None;
      var timing := if exact.Some? then Some(exact.value.timing) else None;
      var row, kept := parts[p], journal;
      if row.finalized {
        if row.timing != timing || row.blob != Some(blob) { return false; }
      } else {
        if row.timing.Some? || row.blob.Some? { return false; }
        row := row.(finalized := true, timing := timing, blob := Some(blob));
      }
      if exact.Some? {
        var s := exact.value.session;
        if exact.value.final.None? {
          kept := kept - {p};
        } else if s in sessions && sessions[s].exact.Some? && !Live(sessions[s].state) {
          if sessions[s].exact != exact.value.final { return false; }
          kept := kept - {p};
        }
      }
      parts, journal, ok := parts[p := row], kept, true;
    }

    /** Rows without a file are settled only in a session already given up. */
    method SettleMissingProvisionalPart(p: PartId)
      requires p in parts && p !in published
      modifies this`parts
      ensures parts ==
        if TerminalMissing(old(View()), p) then old(parts)[p := old(parts)[p].(deleted := true)] else old(parts)
    {
      if TerminalMissing(View(), p) { parts := parts[p := parts[p].(deleted := true)]; }
    }

    /** One row of phase 1. */
    method ReconcilePart(p: PartId) returns (ok: bool)
      requires p in parts
      modifies this`parts, this`journal
      ensures parts.Keys == old(parts.Keys) && (!ok ==> View() == old(View()))
      ensures Consistent(old(View())) && Unreconciled(old(View()), p) ==>
        ok && View() == ReconcileOnePart(old(View()), p)
    {
      if p in published {
        ghost var here := View();
        if Consistent(here) && Unreconciled(here, p) { NoPartConflicts(here, p); }
        ok := RecoverPublishedPart(p, published[p]);
      } else {
        SettleMissingProvisionalPart(p);
        ok := true;
      }
    }

    method ReconcilePublishedParts() returns (ok: bool)
      modifies this`parts, this`journal
      ensures Consistent(old(View())) ==> ok && View() == ReconcilePublished(old(View()))
    {
      ghost var before := View();
      var rows := set p | p in parts && !parts[p].finalized && !parts[p].deleted;
      while rows != {}
        invariant rows <= parts.Keys
        invariant Consistent(before) ==> Consistent(View()) && RowsLeft(View(), rows)
        invariant Consistent(before) ==> ReconcilePublished(View()) == ReconcilePublished(before)
        decreases rows
      {
        var p :| p in rows;
        ghost var here := View();
        if Consistent(here) && RowsLeft(here, rows) { PartStep(here, p); OneRowLess(here, rows, p); }
        ok := ReconcilePart(p);
        if !ok { return; }
        rows := rows - {p};
      }
      ok := true;
      if Consistent(before) { NoRowsLeft(View()); }
    }

    // ----------------------------------------------------------------- phase 2

    method ForSession(s: SessionId) returns (p: Option<PartId>)
      ensures p.Some? ==> IsFinalJournal(View(), s, p.value)
      ensures p.None? ==> forall q :: !IsFinalJournal(View(), s, q)
    {
      var found := exists q :: q in journal && journal[q].session == s && journal[q].final.Some?;
      if !found { return None; }
      var q :| q in journal && journal[q].session == s && journal[q].final.Some?;
      p := Some(q);
    }

    /** Both first jobs and the status message, each only where its key is free. */
    method EnqueueFirstWork(s: SessionId)
      modifies this`jobs, this`outbox
      ensures jobs == WithInitialJobs(old(jobs), {s})
      ensures outbox == WithStatuses(old(outbox), {s})
    {
      if InitialKey(DeliverAudio, s) !in jobs {
        jobs := jobs[InitialKey(DeliverAudio, s) := Job(DeliverAudio, Some(s), false)];
      }
      if InitialKey(Asr, s) !in jobs {
        jobs := jobs[InitialKey(Asr, s) := Job(Asr, Some(s), false)];
      }
      JobRows(old(jobs), {s});
      assert jobs == WithInitialJobs(old(jobs), {s});
      if FinalizedStatus(s) !in outbox {
        outbox := outbox[FinalizedStatus(s) := OutboxRow(Status, Some(s), true)];
      }
    }

    /** The journaled final timing of a session goes into its row. */
    method TimedRow(s: SessionId) returns (row: Option<Session>)
      requires s in sessions
      ensures Resolvable(View(), s) ==>
        && row.Some?
        && row.value == sessions[s].(exact :=
             if FinalTimingOf(View(), s).Some? then FinalTimingOf(View(), s) else sessions[s].exact)
    {
      var last := ForSession(s);
      row := Some(sessions[s]);
      if last.Some? {
        var part := last.value;
        if sessions[s].exact.Some? && sessions[s].exact != journal[part].final { return None; }
        if part !in parts { return None; }
        if parts[part].finalized && parts[part].timing != Some(journal[part].timing) { return None; }
        if !parts[part].finalized && parts[part].timing.Some? { return None; }
        row := Some(sessions[s].(exact := journal[part].final));
      }
    }

    /** One stalled session, in one transaction. */
    method ReconcileStalledSession(s: SessionId) returns (ok: bool)
      requires s in sessions
      modifies this`sessions, this`journal, this`jobs, this`outbox
      ensures sessions.Keys == old(sessions.Keys) && (!ok ==> View() == old(View()))
      ensures Stalled(old(View()), s) && Resolvable(old(View()), s) ==>
        ok && View() == ReconcileOneSession(old(View()), s)
    {
      NothingInserted(jobs, outbox);
      var timed := TimedRow(s);
      if timed.None? { return false; }
      var row, finalizedParts := timed.value, FinalizedParts(View(), s);
      if finalizedParts != {} {
        sessions := sessions[s := row.(state := PROCESSING, reason := NoReason, partCount := |finalizedParts|)];
        EnqueueFirstWork(s);
      } else {
        sessions := sessions[s := row.(state := FAILED, reason := Interrupted)];
      }
      journal := map p | p in journal && journal[p].session != s :: journal[p];
      ok := true;
    }

    method ReconcileStalledSessions() returns (ok: bool)
      modifies this`sessions, this`journal, this`jobs, this`outbox
      ensures Consistent(old(View())) && FilesSettled(old(View())) ==> ok && View() == ReconcileStalled(old(View()))
    {
      ghost var before := View();
      ghost var sound := Consistent(before) && FilesSettled(before);
      var rows := set s | s in sessions && Stalled(View(), s);
      while rows != {}
        invariant rows <= sessions.Keys
        invariant sound ==> StalledLeft(before, View(), rows)
        decreases rows
      {
        var s :| s in rows;
        if sound { OneStalledLess(before, View(), rows, s); }
        ok := ReconcileStalledSession(s);
        if !ok { return; }
        rows := rows - {s};
      }
      ok := true;
      if sound { SettledSessionsAreFixed(View()); }
    }

    // ----------------------------------------------------------------- phase 3

    method InsertMissingProcessingFacts(s: SessionId)
      requires s in sessions
      modifies this`sessions, this`jobs, this`outbox
      ensures View() == RepairSession(old(View()), s)
    {
      sessions := sessions[s := sessions[s].(partCount := |UsableParts(View(), s)|)];
      EnqueueFirstWork(s);
    }

    method ReconcileMissingProcessingJobs()
      modifies this`sessions, this`jobs, this`outbox
      ensures View() == ReconcileProcessing(old(View()))
    {
      ghost var before := View();
      var rows := set s | s in sessions && sessions[s].state == PROCESSING;
      while rows != {}
        invariant RepairsLeft(before, View(), rows)
        decreases rows
      {
        var s :| s in rows;
        OneAssessedLess(before, View(), rows, s);
        if Assess(View(), s) == Repair { InsertMissingProcessingFacts(s); }
        rows := rows - {s};
      }
      NoneRepairable(View());
    }

    /** The whole pass: from consistent state it never throws and does what `Recover` says. */
    method RecoverAfterCrash() returns (ok: bool)
      modifies this`sessions, this`parts, this`journal, this`jobs, this`outbox
      ensures Consistent(old(View())) ==> ok && View() == Recover(old(View()))
    {
      ghost var before := View();
      if Consistent(before) {
        PublishedConsistent(before);
        PublishedSettlesFiles(before);
      }
      ok := ReconcilePublishedParts();
      if !ok { return; }
      ok := ReconcileStalledSessions();
      if !ok { return; }
      ReconcileMissingProcessingJobs();
    }
  }

  /** Stored facts about a part contradict its file, its journal or its session. */
  predicate PartConflicts(db: Db, p: PartId, blob: Blob)
    requires p in db.parts
  {
    var part := db.parts[p];
    || (p in db.journal && db.journal[p].session != part.session)
    || (if part.finalized
        then part.timing != (if p in db.journal then Some(db.journal[p].timing) else None) || part.blob != Some(blob)
        else part.timing.Some? || part.blob.Some?)
    || (p in db.journal && TimingConflicts(db, db.journal[p]))
  }

  predicate TimingConflicts(db: Db, j: Journal) {
    && j.final.Some? && j.session in db.sessions && !Live(db.sessions[j.session].state)
    && db.sessions[j.session].exact.Some? && db.sessions[j.session].exact != j.final
  }

  lemma NoPartConflicts(db: Db, p: PartId)
    requires Consistent(db) && Unreconciled(db, p) && p in db.published
    ensures !PartConflicts(db, p, db.published[p])
  {
    assert PartConsistent(db, p);
    if p in db.journal { assert JournalConsistent(db, p); }
  }

  /** What `assertStoredSessionTiming` and `consumeSession` check holds. */
  ghost predicate Resolvable(db: Db, s: SessionId) {
    && (forall p, q :: IsFinalJournal(db, s, p) && IsFinalJournal(db, s, q) ==> p == q)
    && forall p :: IsFinalJournal(db, s, p) ==>
         && p in db.parts
         && (s in db.sessions && db.sessions[s].exact.Some? ==> db.sessions[s].exact == db.journal[p].final)
         && db.parts[p].timing == (if db.parts[p].finalized then Some(db.journal[p].timing) else None)
  }

  lemma StalledResolvable(db: Db, s: SessionId)
    requires Consistent(db) && s in db.sessions
    ensures Resolvable(db, s)
  {
    forall p | IsFinalJournal(db, s, p) ensures JournalConsistent(db, p) && PartConsistent(db, p) {
    }
  }

  /** The rows of phase 1 still to come: the others are done. */
  ghost predicate RowsLeft(db: Db, rows: set<PartId>) {
    (forall p :: p in rows ==> Unreconciled(db, p)) && forall p :: p !in rows ==> RowDone(db, p)
  }

  lemma OneRowLess(db: Db, rows: set<PartId>, p: PartId)
    requires Consistent(db) && RowsLeft(db, rows) && p in rows
    ensures RowsLeft(ReconcileOnePart(db, p), rows - {p})
  {
    var r := ReconcileOnePart(db, p);
    forall q | q in rows && q != p ensures Unreconciled(r, q) { PartStepRow(db, p, q); }
    forall q | q !in rows - {p} ensures RowDone(r, q) { PartStepDone(db, p, q); }
  }

  lemma NoRowsLeft(db: Db)
    requires Consistent(db) && RowsLeft(db, {})
    ensures ReconcilePublished(db) == db
  {
    forall p | Unreconciled(db, p) ensures p !in db.published && !TerminalMissing(db, p) { assert RowDone(db, p); }
    SettledFilesAreFixed(db);
  }

  /** Phase 2 with `rows` still to come. */
  ghost predicate StalledLeft(before: Db, now: Db, rows: set<SessionId>) {
    && Consistent(now) && FilesSettled(now) && (forall s :: s in rows <==> Stalled(now, s))
    && ReconcileStalled(now) == ReconcileStalled(before)
  }

  lemma OneStalledLess(before: Db, now: Db, rows: set<SessionId>, s: SessionId)
    requires StalledLeft(before, now, rows) && s in rows
    ensures Stalled(now, s) && Resolvable(now, s) && StalledLeft(before, ReconcileOneSession(now, s), rows - {s})
  {
    SessionStep(now, s);
    StalledResolvable(now, s);
  }

  /** Phase 3 with `rows` still to come. */
  ghost predicate RepairsLeft(before: Db, now: Db, rows: set<SessionId>) {
    rows <= now.sessions.Keys && Repairable(now) <= rows && ReconcileProcessing(now) == ReconcileProcessing(before)
  }

  lemma OneAssessedLess(before: Db, now: Db, rows: set<SessionId>, s: SessionId)
    requires RepairsLeft(before, now, rows) && s in rows
    ensures Assess(now, s) == Repair ==> RepairsLeft(before, RepairSession(now, s), rows - {s})
    ensures Assess(now, s) != Repair ==> RepairsLeft(before, now, rows - {s})
  {
    if Assess(now, s) == Repair {
      RepairStep(now, s);
      OneRepairLess(now, s);
    }
  }

  lemma NoneRepairable(db: Db)
    requires Repairable(db) == {}
    ensures ReconcileProcessing(db) == db
  {
    assert forall s :: s in db.sessions ==> s !in Repairable(db);
    SettledJobsAreFixed(db);
  }
}
