/** The durable steps of recording (src/sessionizer/recorder.ts,
    src/database/repository.ts) with a crash possible between any two of them: the
    state a crash leaves is always consistent, so recovery applies to it. */
module RecordingProtocol {

  import opened Common
  import opened RecoveryModel
  import opened RecoveryProof
  import opened RecoverySteps

  /** An outcome waiting for the session's last finalizer. */
  datatype Ending = Ending(timing: Timing, rejected: bool, discarded: bool)

  /** What is lost with the process: sessions being recorded, their open part, parts
      whose finalizer is running, outcomes not yet settled. */
  datatype Runtime = Runtime(
    recording: set<SessionId>, open: map<SessionId, PartId>, closing: set<PartId>, ended: map<SessionId, Ending>)

  const NOTHING_RUNNING := Runtime({}, map[], {}, map[])

  datatype System = System(db: Db, rt: Runtime)

  datatype Event =
    | Start(s: SessionId)
    | OpenPart(s: SessionId, p: PartId)
    | Rotate(s: SessionId, timing: PartTiming, journaled: bool)
    | End(s: SessionId, timing: PartTiming, ending: Ending, journaled: bool)
    | Publish(p: PartId, blob: Blob)
    | CloseThrew(p: PartId)
    | FinalizeRow(p: PartId)
    | RowFailed(p: PartId)
    | Settle(s: SessionId)
    | Pipeline(db: Db)
    | Crash
    | RecoverStep(t: Transaction)

  /** Everything downstream of recording: it moves sessions that are past recording,
      marks finalized parts, deletes delivered files, and changes jobs and outbox; first
      work is enqueued by settling and recovery alone. */
  ghost predicate DownstreamOnly(db: Db, db': Db) {
    && db'.journal == db.journal && db'.sessions.Keys == db.sessions.Keys && db'.parts.Keys == db.parts.Keys
    && (forall s :: s in db.sessions ==>
          if Live(db.sessions[s].state) || FinalizeFailed(db.sessions[s]) then db'.sessions[s] == db.sessions[s]
          else !Live(db'.sessions[s].state) && !FinalizeFailed(db'.sessions[s]))
    && (forall p :: p in db.parts ==>
          if db.parts[p].finalized
          then db'.parts[p] == db.parts[p].(delivered := db'.parts[p].delivered, deleted := db'.parts[p].deleted)
          else db'.parts[p] == db.parts[p])
    && (forall p :: p in db'.published ==> p in db.published && db'.published[p] == db.published[p])
    && (forall p :: p in db.published && p in db.parts && !db.parts[p].finalized ==> p in db'.published)
    && (forall s :: Unsettled(db, s) && NoWorkYet(db, s) ==> NoWorkYet(db', s))
  }

  ghost predicate Enabled(sys: System, e: Event) {
    var db, rt := sys.db, sys.rt;
    match e
    case Start(s) => s !in db.sessions
    case OpenPart(s, p) => s in rt.recording && s !in rt.open && p !in db.parts
    case Rotate(s, _, _) => s in rt.recording && s in rt.open
    case End(s, _, ending, _) => s in rt.recording && (ending.discarded <==> s !in rt.open)
    case Publish(p, _) => p in rt.closing && p !in db.published
    case CloseThrew(p) => p in rt.closing && p !in db.published
    case FinalizeRow(p) => p in rt.closing && p in db.published
    case RowFailed(p) => p in rt.closing && p in db.published
    case Settle(s) => s in rt.ended && forall p :: p in rt.closing && p in db.journal ==> db.journal[p].session != s
    case Pipeline(db') => DownstreamOnly(db, db')
    case Crash => true
    case RecoverStep(t) => rt == NOTHING_RUNNING && Next(db, t)
  }

  /** `closeOpenPart`: the journal and, for the last part, FINALIZING become durable
      together before the part leaves the capture lane; a failure aborts the part. */
  function CloseOpen(sys: System, s: SessionId, timing: PartTiming, final: Option<Timing>, journaled: bool): System
    requires s in sys.rt.open && s in sys.db.sessions
  {
    var p := sys.rt.open[s];
    var rt := sys.rt.(open := sys.rt.open - {s});
    if !journaled then System(sys.db, rt)
    else
      System(
        sys.db.(journal := sys.db.journal[p := Journal(s, timing, final)],
                sessions := if final.Some?
                            then sys.db.sessions[s := sys.db.sessions[s].(state := FINALIZING)] else sys.db.sessions),
        rt.(closing := rt.closing + {p}))
  }

  predicate PendingPart(db: Db, s: SessionId) {
    exists p :: p in db.journal && db.journal[p].session == s && p in db.parts && !db.parts[p].finalized
  }

  predicate StorageProven(db: Db, s: SessionId, ending: Ending)
    requires s in db.sessions
  {
    && !ending.discarded && FinalizedParts(db, s) != {} && !PendingPart(db, s)
    && db.sessions[s].state == FINALIZING
  }

  /** The session's final journal goes once its part has a finalized row. */
  function ConsumeFinal(db: Db, s: SessionId): map<PartId, Journal> {
    map p | p in db.journal
         && !(db.journal[p].session == s && db.journal[p].final.Some? && p in db.parts && db.parts[p].finalized)
      :: db.journal[p]
  }

  function SettleOutcome(db: Db, s: SessionId, ending: Ending): Db
    requires s in db.sessions
  {
    var row := db.sessions[s].(exact := Some(ending.timing), partCount := |FinalizedParts(db, s)|);
    var consumed := db.(journal := ConsumeFinal(db, s));
    if !StorageProven(db, s, ending) then
      consumed.(sessions := db.sessions[s := row.(state := FAILED, reason := AudioFinalizeFailed)])
    else if ending.rejected then
      consumed.(sessions := db.sessions[s := row.(state := REJECTED, reason := OtherReason)])
    else
      consumed.(sessions := db.sessions[s := row.(state := PROCESSING)],
                jobs := WithInitialJobs(db.jobs, {s}), outbox := WithStatuses(db.outbox, {s}))
  }

  /** `finalizePartFromJournal`. */
  function FinalizedRow(db: Db, p: PartId): Db
    requires p in db.parts && p in db.journal && p in db.published
  {
    db.(parts := db.parts[p := db.parts[p].(
          finalized := true, timing := Some(db.journal[p].timing), blob := Some(db.published[p]))],
        journal := if db.journal[p].final.None? then db.journal - {p} else db.journal)
  }

  ghost function Step(sys: System, e: Event): System
    requires Sound(sys) && Enabled(sys, e)
  {
    var db, rt := sys.db, sys.rt;
    match e
    case Start(s) =>
      System(db.(sessions := db.sessions[s := Session(ACTIVE, NoReason, None, 0)]),
             rt.(recording := rt.recording + {s}))
    case OpenPart(s, p) =>
      System(db.(parts := db.parts[p := Part(s, None, None, false, false, false)]), rt.(open := rt.open[s := p]))
    case Rotate(s, timing, journaled) => CloseOpen(sys, s, timing, None, journaled)
    case End(s, timing, ending, journaled) =>
      var closed := if s in rt.open then CloseOpen(sys, s, timing, Some(ending.timing), journaled) else sys;
      closed.(rt := closed.rt.(recording := rt.recording - {s}, ended := rt.ended[s := ending]))
    case Publish(p, blob) => System(db.(published := db.published[p := blob]), rt)
    case CloseThrew(p) => System(db.(journal := db.journal - {p}), rt.(closing := rt.closing - {p}))
    case FinalizeRow(p) => System(FinalizedRow(db, p), rt.(closing := rt.closing - {p}))
    case RowFailed(p) => System(db, rt.(closing := rt.closing - {p}))
    case Settle(s) => System(SettleOutcome(db, s, rt.ended[s]), rt.(ended := rt.ended - {s}))
    case Pipeline(db') => System(db', rt)
    case Crash => System(db, NOTHING_RUNNING)
    case RecoverStep(t) => System(Commit(db, t), rt)
  }

  // --------------------------------------------------------------------- invariant

  ghost predicate Sound(sys: System) {
    Consistent(sys.db) && Running(sys.db, sys.rt)
  }

  ghost predicate Running(db: Db, rt: Runtime) {
    && (forall s :: s in rt.recording ==> RecordingOk(db, rt, s))
    && (forall s :: s in rt.open ==> s in rt.recording && Untouched(db, s, rt.open[s]))
    && (forall p :: p in rt.closing ==> ClosingOk(db, p))
    && (forall s :: s in rt.ended ==> EndedOk(db, s, rt.ended[s].timing))
    && (forall p :: p in db.journal ==> JournalOwned(db, rt, p))
  }

  ghost predicate RecordingOk(db: Db, rt: Runtime, s: SessionId) {
    && s in db.sessions && db.sessions[s].state == ACTIVE && s !in rt.ended
    && forall p :: p in db.journal && db.journal[p].session == s ==> db.journal[p].final.None?
  }

  ghost predicate ClosingOk(db: Db, p: PartId) {
    && p in db.journal && p in db.parts && !db.parts[p].finalized
    && db.parts[p].session in db.sessions && Live(db.sessions[db.parts[p].session].state)
  }

  ghost predicate EndedOk(db: Db, s: SessionId, timing: Timing) {
    && s in db.sessions && Live(db.sessions[s].state)
    && forall p :: p in db.journal && db.journal[p].session == s && db.journal[p].final.Some? ==>
         db.journal[p].final == Some(timing)
  }

  /** While its session is still here, an unfinished part that is not with a
      finalizer has been published. */
  ghost predicate JournalOwned(db: Db, rt: Runtime, p: PartId)
    requires p in db.journal
  {
    p in db.parts && !db.parts[p].finalized && Here(rt, db.journal[p].session) ==> p in rt.closing || p in db.published
  }

  predicate Here(rt: Runtime, s: SessionId) { s in rt.recording || s in rt.ended }

  /** A part still being written has a blank row, no journal and no archive file. */
  ghost predicate Untouched(db: Db, s: SessionId, p: PartId) {
    p in db.parts && Blank(db.parts[p]) && db.parts[p].session == s && p !in db.journal && p !in db.published
  }

  lemma StartSound(sys: System, e: Event)
    requires Sound(sys) && Enabled(sys, e) && (e.Start? || e.OpenPart?)
    ensures Sound(Step(sys, e))
  {
    StartConsistent(sys, e);
    StartRunning(sys, e);
  }

  lemma StartConsistent(sys: System, e: Event)
    requires Sound(sys) && Enabled(sys, e) && (e.Start? || e.OpenPart?)
    ensures Consistent(Step(sys, e).db)
  {
    var db, r := sys.db, Step(sys, e).db;
    forall p | p in r.parts ensures PartConsistent(r, p) {
      if p in db.parts { assert PartConsistent(db, p); }
    }
    forall s | Unsettled(r, s) ensures NoWorkYet(r, s) { SameWork(db, r, s); }
    forall p | p in r.journal ensures JournalConsistent(r, p) { assert JournalConsistent(db, p); }
    forall s, p, q | IsFinalJournal(r, s, p) && IsFinalJournal(r, s, q) ensures p == q {
      assert IsFinalJournal(db, s, p) && IsFinalJournal(db, s, q);
    }
  }

  lemma StartRunning(sys: System, e: Event)
    requires Sound(sys) && Enabled(sys, e) && (e.Start? || e.OpenPart?)
    ensures Running(Step(sys, e).db, Step(sys, e).rt)
  {
    var db, next := sys.db, Step(sys, e);
    forall p | p in db.journal ensures JournalConsistent(db, p) && JournalOwned(next.db, next.rt, p) {
      assert JournalOwned(db, sys.rt, p);
    }
    forall s | s in next.rt.recording ensures RecordingOk(next.db, next.rt, s) {
      if s in sys.rt.recording { assert RecordingOk(db, sys.rt, s); }
    }
    forall p | p in next.rt.closing ensures ClosingOk(next.db, p) { assert ClosingOk(db, p); }
    forall s | s in next.rt.ended ensures EndedOk(next.db, s, next.rt.ended[s].timing) {
      assert EndedOk(db, s, sys.rt.ended[s].timing);
    }
    forall s | s in next.rt.open ensures Untouched(next.db, s, next.rt.open[s]) {
      if s in sys.rt.open { assert Untouched(db, s, sys.rt.open[s]); }
    }
  }

  function Journaled(db: Db, s: SessionId, p: PartId, timing: PartTiming, final: Option<Timing>): Db
    requires s in db.sessions
  {
    db.(journal := db.journal[p := Journal(s, timing, final)],
        sessions := if final.Some? then db.sessions[s := db.sessions[s].(state := FINALIZING)] else db.sessions)
  }

  /** Journaling a part that is leaving the capture lane. */
  lemma JournaledConsistent(db: Db, s: SessionId, p: PartId, timing: PartTiming, final: Option<Timing>)
    requires Consistent(db) && s in db.sessions && db.sessions[s].state == ACTIVE && Untouched(db, s, p)
    requires forall q :: q in db.journal && db.journal[q].session == s ==> db.journal[q].final.None?
    ensures Consistent(Journaled(db, s, p, timing, final))
  {
    var r := Journaled(db, s, p, timing, final);
    forall t | Unsettled(r, t) ensures NoWorkYet(r, t) { SameWork(db, r, t); }
    forall q | q in r.parts ensures PartConsistent(r, q) { assert PartConsistent(db, q); }
    forall q | q in r.journal ensures q in r.parts && JournalConsistent(r, q) {
      if q != p { assert JournalConsistent(db, q); }
    }
    forall t, q, q' | IsFinalJournal(r, t, q) && IsFinalJournal(r, t, q') ensures q == q' {
      if q != p && q' != p { assert IsFinalJournal(db, t, q) && IsFinalJournal(db, t, q'); }
    }
  }

  lemma CloseOpenSound(sys: System, e: Event)
    requires Sound(sys) && Enabled(sys, e) && (e.Rotate? || e.End?)
    ensures Sound(Step(sys, e))
  {
    var db, rt := sys.db, sys.rt;
    assert RecordingOk(db, rt, e.s);
    if e.s in rt.open && e.journaled {
      var final := if e.End? then Some(e.ending.timing) else None;
      assert Untouched(db, e.s, rt.open[e.s]);
      JournaledConsistent(db, e.s, rt.open[e.s], e.timing, final);
      JournaledRunning(sys, e, rt.open[e.s], final);
    } else {
      DroppedRunning(sys, e);
    }
  }

  lemma JournaledRunning(sys: System, e: Event, p: PartId, final: Option<Timing>)
    requires Sound(sys) && Enabled(sys, e) && (e.Rotate? || e.End?)
    requires e.s in sys.rt.open && e.journaled && p == sys.rt.open[e.s]
    requires final == if e.End? then Some(e.ending.timing) else None
    ensures Step(sys, e).db == Journaled(sys.db, e.s, p, e.timing, final)
    ensures Running(Step(sys, e).db, Step(sys, e).rt)
  {
    var db, rt, next := sys.db, sys.rt, Step(sys, e);
    var r := next.db;
    assert Untouched(db, e.s, p) && RecordingOk(db, rt, e.s);
    forall q | q in r.journal ensures JournalOwned(r, next.rt, q) {
      if q != p { assert JournalOwned(db, rt, q); }
    }
    forall s | s in next.rt.recording ensures RecordingOk(r, next.rt, s) { assert RecordingOk(db, rt, s); }
    forall q | q in next.rt.closing ensures ClosingOk(r, q) { if q != p { assert ClosingOk(db, q); } }
    forall s | s in next.rt.ended ensures EndedOk(r, s, next.rt.ended[s].timing) {
      if s in rt.ended && s != e.s { assert EndedOk(db, s, rt.ended[s].timing); }
    }
    forall s | s in next.rt.open ensures s in next.rt.recording && Untouched(r, s, next.rt.open[s]) {
      assert Untouched(db, s, rt.open[s]);
    }
  }

  lemma DroppedRunning(sys: System, e: Event)
    requires Sound(sys) && Enabled(sys, e) && (e.Rotate? || e.End?)
    requires !(e.s in sys.rt.open && e.journaled)
    ensures Step(sys, e).db == sys.db && Running(sys.db, Step(sys, e).rt)
  {
    var db, rt, next := sys.db, sys.rt, Step(sys, e);
    assert RecordingOk(db, rt, e.s);
    forall q | q in db.journal ensures JournalOwned(db, next.rt, q) { assert JournalOwned(db, rt, q); }
    forall s | s in next.rt.recording ensures RecordingOk(db, next.rt, s) { assert RecordingOk(db, rt, s); }
    forall s | s in next.rt.ended ensures EndedOk(db, s, next.rt.ended[s].timing) {
      if s in rt.ended && s != e.s { assert EndedOk(db, s, rt.ended[s].timing); }
    }
    forall s | s in next.rt.open ensures Untouched(db, s, next.rt.open[s]) { assert Untouched(db, s, rt.open[s]); }
  }

  predicate OnFile(e: Event) { e.Publish? || e.CloseThrew? || e.FinalizeRow? || e.RowFailed? }

  lemma FileSound(sys: System, e: Event)
    requires Sound(sys) && Enabled(sys, e) && OnFile(e)
    ensures Sound(Step(sys, e))
  {
    FileConsistent(sys, e);
    FileRunning(sys, e);
  }

  lemma FileConsistent(sys: System, e: Event)
    requires Sound(sys) && Enabled(sys, e) && OnFile(e)
    ensures Consistent(Step(sys, e).db)
  {
    var db, r := sys.db, Step(sys, e).db;
    assert ClosingOk(db, e.p) && JournalConsistent(db, e.p) && PartConsistent(db, e.p);
    forall p | p in r.parts ensures PartConsistent(r, p) { assert PartConsistent(db, p); }
    forall p | p in r.journal ensures JournalConsistent(r, p) { assert JournalConsistent(db, p); }
    forall s, p | IsFinalJournal(r, s, p) ensures IsFinalJournal(db, s, p) {
    }
    forall s | Unsettled(r, s) ensures NoWorkYet(r, s) { SameWork(db, r, s); }
  }

  lemma FileRunning(sys: System, e: Event)
    requires Sound(sys) && Enabled(sys, e) && OnFile(e)
    ensures Running(Step(sys, e).db, Step(sys, e).rt)
  {
    var db, rt, next := sys.db, sys.rt, Step(sys, e);
    var r := next.db;
    assert ClosingOk(db, e.p) && JournalConsistent(db, e.p);
    forall p | p in r.journal ensures JournalOwned(r, next.rt, p) { assert JournalOwned(db, rt, p); }
    forall s | s in next.rt.recording ensures RecordingOk(r, next.rt, s) { assert RecordingOk(db, rt, s); }
    forall p | p in next.rt.closing ensures ClosingOk(r, p) { assert ClosingOk(db, p); }
    forall s | s in next.rt.ended
      ensures EndedOk(r, s, next.rt.ended[s].timing)
    {
      assert EndedOk(db, s, rt.ended[s].timing);
    }
    forall s | s in next.rt.open ensures Untouched(r, s, next.rt.open[s]) { assert Untouched(db, s, rt.open[s]); }
  }

  /** What settling does to durable state, whichever way it ends. */
  ghost predicate SettlesTo(db: Db, s: SessionId, timing: Timing, r: Db) {
    && s in db.sessions
    && r.parts == db.parts && r.published == db.published && r.journal == ConsumeFinal(db, s)
    && r.sessions.Keys == db.sessions.Keys
    && (forall t :: t in db.sessions && t != s ==> r.sessions[t] == db.sessions[t])
    && r.sessions[s].exact == Some(timing) && !Live(r.sessions[s].state)
    && (FinalizeFailed(r.sessions[s]) || !PendingPart(db, s))
    && (r.sessions[s].state == PROCESSING ==> HasFirstWork(r, s))
    && (r.sessions[s].state != PROCESSING ==> NoWorkYet(r, s))
    && (forall t :: t != s && NoWorkYet(db, t) ==> NoWorkYet(r, t))
  }

  lemma SettledRow(db: Db, s: SessionId, ending: Ending)
    requires s in db.sessions && Live(db.sessions[s].state) && NoWorkYet(db, s)
    ensures SettlesTo(db, s, ending.timing, SettleOutcome(db, s, ending))
  {
    var r := SettleOutcome(db, s, ending);
    if r.sessions[s].state == PROCESSING {
      HandedOver(db, r, s);
    } else {
      forall t ensures NoWorkYet(db, t) ==> NoWorkYet(r, t) { SameWork(db, r, t); }
    }
  }

  lemma HandedOver(db: Db, r: Db, s: SessionId)
    requires NoWorkYet(db, s)
    requires r.jobs == WithInitialJobs(db.jobs, {s}) && r.outbox == WithStatuses(db.outbox, {s})
    ensures HasFirstWork(r, s) && forall t :: t != s && NoWorkYet(db, t) ==> NoWorkYet(r, t)
  {
    FirstWorkInserted(db, r, {s}, s);
    forall t | t != s && NoWorkYet(db, t) ensures NoWorkYet(r, t) { OtherWorkStays(db, r, {s}, t); }
  }

  /** Settling a live session, with every exit of the source: what it hands to the
      pipeline is one job of each first kind, and only with its storage proven. */
  lemma SettleSound(sys: System, s: SessionId)
    requires Sound(sys) && Enabled(sys, Settle(s))
    ensures Sound(Step(sys, Settle(s)))
    ensures s in sys.db.sessions && SettlesTo(sys.db, s, sys.rt.ended[s].timing, Step(sys, Settle(s)).db)
  {
    var db, rt := sys.db, sys.rt;
    assert EndedOk(db, s, rt.ended[s].timing) && Unsettled(db, s);
    SettledRow(db, s, rt.ended[s]);
    SettleConsistent(sys, s, SettleOutcome(db, s, rt.ended[s]));
    SettleRunning(sys, s, SettleOutcome(db, s, rt.ended[s]));
  }

  lemma SettleConsistent(sys: System, s: SessionId, r: Db)
    requires Sound(sys) && Enabled(sys, Settle(s)) && SettlesTo(sys.db, s, sys.rt.ended[s].timing, r)
    ensures Consistent(r)
  {
    var db := sys.db;
    forall p | p in r.journal ensures JournalConsistent(r, p) {
      assert JournalConsistent(db, p) && JournalOwned(db, sys.rt, p);
      assert EndedOk(db, s, sys.rt.ended[s].timing);
    }
    forall p | p in r.parts ensures PartConsistent(r, p) {
      assert PartConsistent(db, p);
      if p in db.journal { assert JournalConsistent(db, p); }
    }
    forall t, p | IsFinalJournal(r, t, p) ensures IsFinalJournal(db, t, p) {
    }
    SettleWork(db, s, sys.rt.ended[s].timing, r);
  }

  lemma SettleWork(db: Db, s: SessionId, timing: Timing, r: Db)
    requires Consistent(db) && SettlesTo(db, s, timing, r)
    ensures forall t :: Unsettled(r, t) ==> NoWorkYet(r, t)
  {
    forall t | Unsettled(r, t) ensures NoWorkYet(r, t) {
      if t != s { assert Unsettled(db, t); }
    }
  }

  lemma SettleRunning(sys: System, s: SessionId, r: Db)
    requires Sound(sys) && Enabled(sys, Settle(s)) && SettlesTo(sys.db, s, sys.rt.ended[s].timing, r)
    ensures Running(r, sys.rt.(ended := sys.rt.ended - {s}))
  {
    var db, rt, rt' := sys.db, sys.rt, sys.rt.(ended := sys.rt.ended - {s});
    forall p | p in r.journal ensures JournalOwned(r, rt', p) { assert JournalOwned(db, rt, p); }
    forall t | t in rt'.recording ensures RecordingOk(r, rt', t) { assert RecordingOk(db, rt, t); }
    forall p | p in rt'.closing ensures ClosingOk(r, p) {
      assert ClosingOk(db, p) && JournalConsistent(db, p);
    }
    forall t | t in rt'.ended ensures EndedOk(r, t, rt'.ended[t].timing) { assert EndedOk(db, t, rt.ended[t].timing); }
    forall t | t in rt'.open ensures Untouched(r, t, rt'.open[t]) { assert Untouched(db, t, rt.open[t]); }
  }

  lemma PipelineSound(sys: System, db': Db)
    requires Sound(sys) && Enabled(sys, Pipeline(db'))
    ensures Sound(Step(sys, Pipeline(db')))
  {
    var db, rt := sys.db, sys.rt;
    forall p | p in db'.parts ensures PartConsistent(db', p) { assert PartConsistent(db, p); }
    forall p | p in db'.journal ensures JournalConsistent(db', p) && JournalOwned(db', rt, p) {
      assert JournalConsistent(db, p) && JournalOwned(db, rt, p);
    }
    forall s, p | IsFinalJournal(db', s, p) ensures IsFinalJournal(db, s, p) {
    }
    PipelineWork(db, db');
    PipelineRunning(db, rt, db');
  }

  lemma PipelineWork(db: Db, db': Db)
    requires Consistent(db) && DownstreamOnly(db, db')
    ensures forall s :: Unsettled(db', s) ==> NoWorkYet(db', s)
  {
    forall s | Unsettled(db', s) ensures NoWorkYet(db', s) { assert Unsettled(db, s); }
  }

  lemma PipelineRunning(db: Db, rt: Runtime, db': Db)
    requires Consistent(db) && Running(db, rt) && DownstreamOnly(db, db')
    requires forall p :: p in db'.journal ==> JournalOwned(db', rt, p)
    ensures Running(db', rt)
  {
    forall s | s in rt.recording ensures RecordingOk(db', rt, s) { assert RecordingOk(db, rt, s); }
    forall p | p in rt.closing ensures ClosingOk(db', p) { assert ClosingOk(db, p); }
    forall s | s in rt.ended ensures EndedOk(db', s, rt.ended[s].timing) { assert EndedOk(db, s, rt.ended[s].timing); }
    forall s | s in rt.open ensures Untouched(db', s, rt.open[s]) { assert Untouched(db, s, rt.open[s]); }
  }

  lemma NothingRunning(db: Db)
    ensures Running(db, NOTHING_RUNNING)
  {
  }

  lemma RecoverStepSound(sys: System, t: Transaction)
    requires Sound(sys) && Enabled(sys, RecoverStep(t))
    ensures Sound(Step(sys, RecoverStep(t)))
  {
    CommitResumes(sys.db, t);
    NothingRunning(Commit(sys.db, t));
  }

  lemma StepSound(sys: System, e: Event)
    requires Sound(sys) && Enabled(sys, e)
    ensures Sound(Step(sys, e))
  {
    match e
    case Start(_) => StartSound(sys, e);
    case OpenPart(_, _) => StartSound(sys, e);
    case Rotate(_, _, _) => CloseOpenSound(sys, e);
    case End(_, _, _, _) => CloseOpenSound(sys, e);
    case Publish(_, _) => FileSound(sys, e);
    case CloseThrew(_) => FileSound(sys, e);
    case FinalizeRow(_) => FileSound(sys, e);
    case RowFailed(_) => FileSound(sys, e);
    case Settle(s) => SettleSound(sys, s);
    case Pipeline(db') => PipelineSound(sys, db');
    case Crash => NothingRunning(sys.db);
    case RecoverStep(t) => RecoverStepSound(sys, t);
  }

  const BLANK_DB := Db(map[], map[], map[], map[], map[], {}, map[])

  ghost predicate Reaches(sys: System, events: seq<Event>, sys': System)
    decreases |events|
  {
    if events == [] then sys' == sys
    else Sound(sys) && Enabled(sys, events[0]) && Reaches(Step(sys, events[0]), events[1..], sys')
  }

  lemma {:induction false} EveryRunSound(sys: System, events: seq<Event>, sys': System)
    requires Sound(sys) && Reaches(sys, events, sys')
    ensures Sound(sys')
    decreases |events|
  {
    if events != [] {
      StepSound(sys, events[0]);
      EveryRunSound(Step(sys, events[0]), events[1..], sys');
    }
  }

  ghost predicate Recovering(events: seq<Event>) {
    forall i :: 0 <= i < |events| ==> events[i].RecoverStep? || events[i].Crash?
  }

  /** However often recovery is cut off between two of its transactions and started
      again, the next pass ends where the first one would have. */
  lemma {:induction false} InterruptedRecoveryResumes(sys: System, events: seq<Event>, sys': System)
    requires Sound(sys) && Reaches(sys, events, sys') && Recovering(events)
    ensures Consistent(sys'.db) && Recover(sys'.db) == Recover(sys.db)
    decreases |events|
  {
    if events != [] {
      var e := events[0];
      StepSound(sys, e);
      if e.RecoverStep? { CommitResumes(sys.db, e.t); }
      assert Recovering(events[1..]);
      InterruptedRecoveryResumes(Step(sys, e), events[1..], sys');
    }
  }

  /** A crash after any run, between any two transactions of recording, of the pipeline
      or of an earlier recovery: one recovery pass gives every archive file its
      journaled row, leaves no session open and no journal behind, hands each stalled
      session that has audio to the pipeline with exactly one job of each first kind
      and fails the others, and a second pass changes nothing. */
  lemma CrashAnywhereRecovers(events: seq<Event>, sys: System)
    requires Reaches(System(BLANK_DB, NOTHING_RUNNING), events, sys)
    ensures Consistent(sys.db)
    ensures var r := Recover(sys.db);
      && Recover(r) == r && r.journal == map[]
      && (forall s :: s in r.sessions ==> !Live(r.sessions[s].state))
      && (forall p :: p in sys.db.published ==> p in r.parts && r.parts[p].finalized)
    ensures forall s :: Stalled(ReconcilePublished(sys.db), s) ==>
      Resolved(ReconcilePublished(sys.db), Recover(sys.db), s)
  {
    EveryRunSound(System(BLANK_DB, NOTHING_RUNNING), events, sys);
    RecoveredState(sys.db);
    forall s | Stalled(ReconcilePublished(sys.db), s)
      ensures Resolved(ReconcilePublished(sys.db), Recover(sys.db), s)
    {
      StalledSessionsResolved(sys.db, s);
    }
  }

  lemma RecoveredState(db: Db)
    requires Consistent(db)
    ensures var r := Recover(db);
      && Recover(r) == r && r.journal == map[]
      && (forall s :: s in r.sessions ==> !Live(r.sessions[s].state))
      && (forall p :: p in db.published ==> p in r.parts && r.parts[p].finalized)
  {
    RecoverIsIdempotent(db);
    RecoverSettles(db);
    forall s | s in Recover(db).sessions ensures !Live(Recover(db).sessions[s].state) {
      assert !Stalled(Recover(db), s);
    }
    forall p | p in db.published ensures p in Recover(db).parts && Recover(db).parts[p].finalized {
      PublishedFilesRecovered(db, p);
    }
  }
}
