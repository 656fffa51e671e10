/** What every run of the recorder keeps: the two pre-roll buffers stay in step,
    storage slots are accounted for, and every session's outcome is settled once,
    after its last finalizer. */
module RecorderSafety {

  import opened Common
  import opened SessionMachine
  import opened RecorderModel

  // ----------------------------------------------------------------- the invariant

  /** Reserved slots are the running finalizers plus the open part. */
  ghost predicate Slots(h: Host) {
    && !h.violated
    && h.reserved == |h.finalizers| + (if h.openPart.Some? then 1 else 0)
    && h.reserved <= FINALIZER_CAPACITY
    && forall t :: t in h.finalizers ==> t < h.nextTask
  }

  /** Sessions that have ended are pending or settled, never both and never twice;
      a settled one has no finalizer left. `live` is the session in progress. */
  ghost predicate Outcomes(h: Host, live: Option<SessionId>) {
    && (live.Some? ==> live.value < h.nextSession)
    && (forall id :: id in h.pending ==>
          id < h.nextSession && live != Some(id) && h.pending[id].outcome.session == id)
    && (forall k :: 0 <= k < |h.settled| ==>
          h.settled[k].outcome.session < h.nextSession && live != Some(h.settled[k].outcome.session)
          && h.settled[k].outcome.session !in h.pending
          && h.settled[k].outcome.session !in h.finalizers.Values)
    && (forall j, k :: 0 <= j < k < |h.settled| ==> h.settled[j].outcome.session != h.settled[k].outcome.session)
    && (forall t :: t in h.finalizers ==> live == Some(h.finalizers[t]) || h.finalizers[t] in h.pending)
    && (forall id: nat :: id < h.nextSession && live != Some(id) ==> id in h.pending || IsSettled(h, id))
  }

  ghost predicate IsSettled(h: Host, id: SessionId) {
    exists k :: 0 <= k < |h.settled| && h.settled[k].outcome.session == id
  }

  ghost function Live(m: Machine): Option<SessionId> {
    if m.mode.InSession() then Some(m.mode.session.id) else None
  }

  /** Between frames, the host's buffers are where the machine believes they are. */
  ghost predicate Aligned(h: Host) {
    if h.machine.mode.InSession() then
      var s := h.machine.mode.session;
      && h.preRoll == [] && h.machine.ring == []
      && s.id == h.nextSession - 1
      && (h.openPart.None? <==> h.discarding == Some(s.id))
      && (h.openPart.Some? ==>
            h.discarding.None?
            && h.openPart.value.session == s.id
            && h.openPart.value.index == s.partIndex
            && h.openPart.value.startedMonotonicMs == s.partStartedMonotonicMs)
    else
      && h.openPart.None? && h.discarding.None?
      && Durations(h.preRoll) == h.machine.ring
  }

  ghost predicate Sound(h: Host) {
    Slots(h) && Outcomes(h, Live(h.machine)) && Aligned(h)
  }

  // -------------------------------------------------------------- small operations

  /** `Outcomes` looks at nothing else. */
  lemma OutcomesFrame(h: Host, r: Host, live: Option<SessionId>)
    requires Outcomes(h, live)
    requires r.nextSession == h.nextSession && r.pending == h.pending
    requires r.settled == h.settled && r.finalizers == h.finalizers
    ensures Outcomes(r, live)
  {
    forall id: nat | id < r.nextSession && live != Some(id) ensures id in r.pending || IsSettled(r, id) {
      if IsSettled(h, id) {
        var k :| 0 <= k < |h.settled| && h.settled[k].outcome.session == id;
        assert r.settled[k].outcome.session == id;
      }
    }
  }

  lemma FinishSlots(h: Host, task: TaskId)
    requires Slots(h)
    ensures Slots(Finish(h, task))
    ensures Finish(h, task).finalizers.Values <= h.finalizers.Values
  {
    if task in h.finalizers {
      var rest := h.finalizers - {task};
      assert h.finalizers.Keys == rest.Keys + {task};
      assert |rest| == |rest.Keys| && |h.finalizers| == |h.finalizers.Keys|;
    }
  }

  lemma FinishKeeps(h: Host, task: TaskId, live: Option<SessionId>)
    requires Slots(h) && Outcomes(h, live)
    ensures var r := Finish(h, task); Slots(r) && Outcomes(r, live)
    ensures Finish(h, task) == h.(finalizers := Finish(h, task).finalizers, reserved := Finish(h, task).reserved)
  {
    FinishSlots(h, task);
    FewerFinalizers(h, Finish(h, task), live);
  }

  /** Losing a finalizer leaves every session where it was. */
  lemma FewerFinalizers(h: Host, r: Host, live: Option<SessionId>)
    requires Outcomes(h, live)
    requires r == h.(finalizers := r.finalizers, reserved := r.reserved)
    requires forall t :: t in r.finalizers ==> t in h.finalizers && r.finalizers[t] == h.finalizers[t]
    requires r.finalizers.Values <= h.finalizers.Values
    ensures Outcomes(r, live)
  {
    forall id: nat | id < r.nextSession && live != Some(id) ensures id in r.pending || IsSettled(r, id) {
      if id !in h.pending {
        var k :| 0 <= k < |h.settled| && h.settled[k].outcome.session == id;
        assert r.settled[k].outcome.session == id;
      }
    }
  }

  lemma {:induction false} FinishAllKeeps(h: Host, tasks: seq<TaskId>, live: Option<SessionId>)
    requires Slots(h) && Outcomes(h, live)
    ensures var r := FinishAll(h, tasks); Slots(r) && Outcomes(r, live)
    ensures FinishAll(h, tasks)
      == h.(finalizers := FinishAll(h, tasks).finalizers, reserved := FinishAll(h, tasks).reserved)
    decreases tasks
  {
    if tasks != [] {
      FinishKeeps(h, tasks[0], live);
      FinishAllKeeps(Finish(h, tasks[0]), tasks[1..], live);
    }
  }

  /** A reserved slot is always there for the part or the cleanup that takes it. */
  lemma TrackKeeps(h: Host, session: SessionId, live: Option<SessionId>)
    requires Slots(h.(reserved := |h.finalizers| + (if h.openPart.Some? then 1 else 0)))
    requires h.reserved == |h.finalizers| + 1 + (if h.openPart.Some? then 1 else 0) && h.reserved <= FINALIZER_CAPACITY
    requires Outcomes(h, live) && live == Some(session)
    ensures var r := Track(h, session); Slots(r) && Outcomes(r, live)
    ensures Track(h, session) == h.(finalizers := Track(h, session).finalizers, nextTask := h.nextTask + 1)
  {
    var r := Track(h, session);
    assert h.nextTask !in h.finalizers;
    assert r.finalizers.Keys == h.finalizers.Keys + {h.nextTask};
    assert |r.finalizers| == |r.finalizers.Keys| && |h.finalizers| == |h.finalizers.Keys|;
    forall id | id in r.finalizers.Values ensures id in h.finalizers.Values || id == session {
    }
  }

  lemma OpenKeeps(h: Host, intent: Intent, storageFails: bool, live: Option<SessionId>)
    requires intent.OpenPart? && h.openPart.None? && live == Some(intent.session)
    requires Slots(h) && Outcomes(h, live)
    ensures var r := OpenNewPart(h, intent, storageFails); Slots(r) && Outcomes(r, live)
  {
    var r := OpenNewPart(h, intent, storageFails);
    if h.discarding != Some(intent.session) && h.reserved < FINALIZER_CAPACITY && storageFails {
      FailedOpenKeeps(h, intent, live);
    } else {
      OutcomesFrame(h, r, live);
    }
  }

  lemma FailedOpenKeeps(h: Host, intent: Intent, live: Option<SessionId>)
    requires intent.OpenPart? && h.openPart.None? && live == Some(intent.session)
    requires Slots(h) && Outcomes(h, live) && h.discarding != Some(intent.session) && h.reserved < FINALIZER_CAPACITY
    ensures var r := OpenNewPart(h, intent, true); Slots(r) && Outcomes(r, live)
  {
    var reserving := h.(reserved := h.reserved + 1, discarding := Some(intent.session), preRoll := []);
    OutcomesFrame(h, reserving, live);
    TrackKeeps(reserving, intent.session, live);
  }

  lemma CloseKeeps(h: Host, storageFails: bool, live: Option<SessionId>)
    requires Slots(h) && Outcomes(h, live)
    requires h.openPart.Some? ==> live == Some(h.openPart.value.session)
    ensures var r := CloseOpenPart(h, storageFails); Slots(r) && Outcomes(r, live) && r.openPart.None?
  {
    if h.openPart.Some? {
      var part := h.openPart.value.(fate := if storageFails then Aborted else Journaled);
      var leaving := h.(openPart := None, detached := h.detached + [part]);
      OutcomesFrame(h, leaving, live);
      TrackKeeps(leaving, part.session, live);
    }
  }

  lemma SettledStays(h: Host, last: Settlement, id: SessionId)
    requires IsSettled(h, id) || id == last.outcome.session
    ensures IsSettled(h.(settled := h.settled + [last]), id)
  {
    var r := h.(settled := h.settled + [last]);
    if IsSettled(h, id) {
      var k :| 0 <= k < |h.settled| && h.settled[k].outcome.session == id;
      assert r.settled[k].outcome.session == id;
    } else {
      assert r.settled[|h.settled|].outcome.session == id;
    }
  }

  lemma SettleNowKeeps(h: Host, last: Settlement)
    requires Outcomes(h, Some(last.outcome.session)) && last.outcome.session !in h.finalizers.Values
    ensures Outcomes(h.(settled := h.settled + [last]), None)
  {
    var r := h.(settled := h.settled + [last]);
    forall id: nat | id < r.nextSession ensures id in r.pending || IsSettled(r, id) {
      if id !in h.pending { SettledStays(h, last, id); }
    }
    forall t | t in r.finalizers ensures r.finalizers[t] in r.pending {
      assert r.finalizers[t] in h.finalizers.Values;
    }
  }

  lemma DeferKeeps(h: Host, last: Settlement)
    requires Outcomes(h, Some(last.outcome.session))
    ensures Outcomes(h.(pending := h.pending[last.outcome.session := last]), None)
  {
    var r := h.(pending := h.pending[last.outcome.session := last]);
    forall id: nat | id < r.nextSession ensures id in r.pending || IsSettled(r, id) {
      if id != last.outcome.session && id !in h.pending {
        assert IsSettled(h, id);
      }
    }
  }

  /** The outcome ends the live session: it is settled at once or kept pending. */
  lemma OutcomeKeeps(h: Host, outcome: Intent)
    requires Slots(h) && Outcomes(h, Some(outcome.session))
    ensures var r := DeferOrSettle(h, outcome); Slots(r) && Outcomes(r, None)
  {
    var discarded := h.discarding == Some(outcome.session);
    var cleared := if discarded then h.(discarding := None) else h;
    OutcomesFrame(h, cleared, Some(outcome.session));
    if outcome.session in cleared.finalizers.Values {
      DeferKeeps(cleared, Settlement(outcome, discarded));
    } else {
      SettleNowKeeps(cleared, Settlement(outcome, discarded));
    }
  }

  lemma SettleKeeps(h: Host, session: SessionId, live: Option<SessionId>)
    requires Slots(h) && Outcomes(h, live)
    ensures var r := SettleDeferred(h, session); Slots(r) && Outcomes(r, live)
    ensures SettleDeferred(h, session)
      == h.(pending := SettleDeferred(h, session).pending, settled := SettleDeferred(h, session).settled)
  {
    if session !in h.finalizers.Values && session in h.pending {
      MoveToSettled(h, session, live);
    }
  }

  lemma MoveToSettled(h: Host, session: SessionId, live: Option<SessionId>)
    requires Outcomes(h, live) && session in h.pending && session !in h.finalizers.Values
    ensures Outcomes(h.(settled := h.settled + [h.pending[session]], pending := h.pending - {session}), live)
  {
    var r := h.(settled := h.settled + [h.pending[session]], pending := h.pending - {session});
    assert h.pending[session].outcome.session == session;
    forall k | 0 <= k < |r.settled|
      ensures r.settled[k].outcome.session !in r.pending && live != Some(r.settled[k].outcome.session)
    {
      assert k < |h.settled| ==> r.settled[k] == h.settled[k];
    }
    forall t | t in r.finalizers ensures live == Some(r.finalizers[t]) || r.finalizers[t] in r.pending {
      assert r.finalizers[t] in h.finalizers.Values;
    }
    forall id: nat | id < r.nextSession && live != Some(id) ensures id in r.pending || IsSettled(r, id) {
      if id !in r.pending {
        SettledStays(h, h.pending[session], id);
        var k :| 0 <= k < |r.settled| && r.settled[k].outcome.session == id;
      }
    }
  }

  // ------------------------------------------------------------- pre-roll in step

  lemma {:induction false} TrimsAlike(frames: seq<CaptureFrame>, capacityMs: int)
    ensures Durations(TrimFrames(frames, capacityMs)) == Trim(Durations(frames), capacityMs)
    decreases |frames|
  {
    if |frames| > 1 && Sum(Durations(frames)) > capacityMs {
      assert Durations(frames[1..]) == Durations(frames)[1..];
      TrimsAlike(frames[1..], capacityMs);
    }
  }

  /** The host's ring of raw frames and the machine's ring of durations take the
      same frame and drop the same oldest ones. */
  lemma BufferedAlike(preRoll: seq<CaptureFrame>, ring: seq<nat>, frame: CaptureFrame, capacityMs: int)
    requires Durations(preRoll) == ring
    ensures Durations(TrimFrames(preRoll + [frame], capacityMs)) == Trim(ring + [frame.durationMs], capacityMs)
  {
    assert Durations(preRoll + [frame]) == ring + [frame.durationMs];
    TrimsAlike(preRoll + [frame], capacityMs);
  }

  // ------------------------------------------------------------- whole intent lists

  lemma ApplyTwo(h: Host, a: Intent, b: Intent, env: seq<Await>)
    ensures ApplyAll(h, [a, b], env) == ApplyIntent(ApplyIntent(h, a, Next(env)), b, Next(Rest(env)))
  {
    var first := ApplyIntent(h, a, Next(env));
    assert [a, b][1..] == [b];
    assert [b][1..] == [];
    assert ApplyAll(first, [b], Rest(env)) == ApplyAll(ApplyIntent(first, b, Next(Rest(env))), [], Rest(Rest(env)));
  }

  lemma BeginKeeps(h: Host)
    requires Outcomes(h, None)
    ensures Outcomes(h.(nextSession := h.nextSession + 1), Some(h.nextSession))
  {
    var r := h.(nextSession := h.nextSession + 1);
    forall id: nat | id < r.nextSession && id != h.nextSession ensures id in r.pending || IsSettled(r, id) {
      if id !in h.pending {
        var k :| 0 <= k < |h.settled| && h.settled[k].outcome.session == id;
        assert r.settled[k].outcome.session == id;
      }
    }
  }

  /** Opening or reopening a part for the live session leaves host and machine aligned. */
  lemma OpenAligns(h: Host, intent: Intent, await: Await)
    requires Slots(h) && Outcomes(h, Live(h.machine)) && h.machine.mode.InSession()
    requires var s := h.machine.mode.session;
      && intent.OpenPart? && intent.session == s.id && intent.index == s.partIndex
      && intent.startedMonotonicMs == s.partStartedMonotonicMs && s.id == h.nextSession - 1
    requires h.openPart.None? && h.machine.ring == []
    requires h.discarding.None? || (h.discarding == Some(intent.session) && h.preRoll == [])
    ensures Sound(ApplyIntent(h, intent, await))
    ensures ApplyIntent(h, intent, await).machine == h.machine
  {
    var ready := FinishAll(h, await.finished);
    FinishAllKeeps(h, await.finished, Live(h.machine));
    OpenKeeps(ready, intent, await.storageFails, Live(h.machine));
  }

  lemma CloseEnds(h: Host, intent: Intent, await: Await)
    requires intent.ClosePart?
    requires Slots(h) && Outcomes(h, Some(intent.session))
    requires h.openPart.Some? ==> h.openPart.value.session == intent.session
    ensures var r := ApplyIntent(h, intent, await);
      && Slots(r) && Outcomes(r, Some(intent.session))
      && r.openPart.None? && r.discarding == h.discarding && r.preRoll == h.preRoll
      && r.machine == h.machine && r.nextSession == h.nextSession
  {
    FinishAllKeeps(h, await.finished, Some(intent.session));
    CloseKeeps(FinishAll(h, await.finished), await.storageFails, Some(intent.session));
  }

  lemma OutcomeEnds(h: Host, intent: Intent, await: Await)
    requires intent.SessionFinalized? || intent.SessionRejected?
    requires Slots(h) && Outcomes(h, Some(intent.session)) && h.openPart.None?
    requires h.discarding.None? || h.discarding == Some(intent.session)
    ensures var r := ApplyIntent(h, intent, await);
      && Slots(r) && Outcomes(r, None)
      && r.openPart.None? && r.discarding.None? && r.preRoll == h.preRoll
      && r.machine == h.machine && r.nextSession == h.nextSession
  {
    FinishAllKeeps(h, await.finished, Some(intent.session));
    OutcomeKeeps(FinishAll(h, await.finished), intent);
  }

  /** Close and outcome of a session, from silence or by force. */
  lemma EndSound(config: Config, h: Host, m: Machine, env: seq<Await>)
    requires Sound(h) && h.machine.mode.InSession()
    ensures
      var out := Finalize(config, m, h.machine.mode.session);
      Sound(ApplyAll(AfterPush(h, out), out.1, env)) && ApplyAll(AfterPush(h, out), out.1, env).machine == out.0
  {
    var s := h.machine.mode.session;
    var out := Finalize(config, m, s);
    var pushed := AfterPush(h, out);
    OutcomesFrame(h, pushed, Some(s.id));
    ApplyTwo(pushed, out.1[0], out.1[1], env);
    CloseEnds(pushed, out.1[0], Next(env));
    OutcomeEnds(ApplyIntent(pushed, out.1[0], Next(env)), out.1[1], Next(Rest(env)));
    assert out.1 == [out.1[0], out.1[1]];
  }

  /** Speech in a session, with or without a rotation. */
  lemma SpeakSound(config: Config, h: Host, m: Machine, durationMs: nat, env: seq<Await>)
    requires Sound(h) && h.machine.mode.InSession() && m.ring == h.machine.ring
    ensures
      var out := Speak(config, m, h.machine.mode.session, durationMs);
      Sound(ApplyAll(AfterPush(h, out), out.1, env)) && ApplyAll(AfterPush(h, out), out.1, env).machine == out.0
  {
    var s := h.machine.mode.session;
    var out := Speak(config, m, s, durationMs);
    var pushed := AfterPush(h, out);
    OutcomesFrame(h, pushed, Some(s.id));
    if out.1 != [] {
      ApplyTwo(pushed, out.1[0], out.1[1], env);
      CloseEnds(pushed, out.1[0], Next(env));
      OpenAligns(ApplyIntent(pushed, out.1[0], Next(env)), out.1[1], Next(Rest(env)));
      assert out.1 == [out.1[0], out.1[1]];
    }
  }

  /** The frame that opens a session. */
  lemma OpeningSound(h: Host, preRoll: seq<CaptureFrame>, m: Machine, speechMs: nat, env: seq<Await>)
    requires Sound(h) && !h.machine.mode.InSession()
    ensures
      var out := Open(m, speechMs, h.nextSession);
      var held := AfterPush(h, out).(preRoll := preRoll);
      Sound(ApplyAll(held, out.1, env)) && ApplyAll(held, out.1, env).machine == out.0
  {
    var out := Open(m, speechMs, h.nextSession);
    var held := AfterPush(h, out).(preRoll := preRoll);
    BeginKeeps(h);
    OutcomesFrame(h.(nextSession := h.nextSession + 1), held, Some(h.nextSession));
    ApplyTwo(held, out.1[0], out.1[1], env);
    FinishAllKeeps(held, Next(env).finished, Some(h.nextSession));
    OpenAligns(ApplyIntent(held, out.1[0], Next(env)), out.1[1], Next(Rest(env)));
    assert out.1 == [out.1[0], out.1[1]];
  }

  // ------------------------------------------------------------------------- steps

  lemma RecordingFrameSound(config: Config, h: Host, frame: CaptureFrame, probability: real, env: seq<Await>)
    requires Sound(h) && h.machine.mode.InSession()
    ensures
      var out := Push(config, h.machine, VadOf(frame, probability), h.nextSession);
      Sound(ApplyAll(AfterPush(h, out), out.1, env))
  {
    var out := Push(config, h.machine, VadOf(frame, probability), h.nextSession);
    var seen := h.machine.(lastMonotonicMs := frame.monotonicMs, lastWallMs := frame.wallMs);
    if probability >= config.vadThreshold {
      SpeakSound(config, h, seen, frame.durationMs, env);
    } else if out.1 != [] {
      EndSound(config, h, seen, env);
    } else {
      OutcomesFrame(h, AfterPush(h, out), Live(h.machine));
    }
  }

  lemma ListeningFrameSound(config: Config, h: Host, frame: CaptureFrame, probability: real, env: seq<Await>)
    requires Sound(h) && !h.machine.mode.InSession()
    ensures
      var out := Push(config, h.machine, VadOf(frame, probability), h.nextSession);
      var held := AfterPush(h, out).(preRoll := TrimFrames(h.preRoll + [frame], config.preRollMs));
      && Sound(ApplyAll(held, out.1, env))
      && (ApplyAll(held, out.1, env).openPart.Some? ==> OpensPart(out.1))
  {
    var preRoll := TrimFrames(h.preRoll + [frame], config.preRollMs);
    BufferedAlike(h.preRoll, h.machine.ring, frame, config.preRollMs);
    var m := h.machine.(
      lastMonotonicMs := frame.monotonicMs, lastWallMs := frame.wallMs, ring := Durations(preRoll));
    ListenSound(config, h, preRoll, m, probability >= config.vadThreshold, frame.durationMs, env);
  }

  lemma ListenSound(
    config: Config, h: Host, preRoll: seq<CaptureFrame>, m: Machine, isSpeech: bool, durationMs: nat, env: seq<Await>)
    requires Sound(h) && !h.machine.mode.InSession()
    requires m.mode == h.machine.mode && m.ring == Durations(preRoll)
    ensures
      var out := Listen(config, m, isSpeech, durationMs, h.nextSession);
      var held := AfterPush(h, out).(preRoll := preRoll);
      && Sound(ApplyAll(held, out.1, env))
      && (ApplyAll(held, out.1, env).openPart.Some? ==> OpensPart(out.1))
  {
    var out := Listen(config, m, isSpeech, durationMs, h.nextSession);
    var held := AfterPush(h, out).(preRoll := preRoll);
    if out.1 != [] {
      OpeningSound(h, preRoll, m, m.mode.speechMs + durationMs, env);
      assert out.1[1].OpenPart?;
    } else {
      OutcomesFrame(h, held, None);
    }
  }

  lemma ConsumeSound(config: Config, h: Host, frame: CaptureFrame, probability: real, env: seq<Await>)
    requires Sound(h)
    ensures Sound(Consume(config, h, frame, probability, env))
  {
    var out := Push(config, h.machine, VadOf(frame, probability), h.nextSession);
    if h.machine.mode.InSession() {
      RecordingFrameSound(config, h, frame, probability, env);
      WriteSound(ApplyAll(AfterPush(h, out), out.1, env), frame.pcm);
    } else {
      ListeningFrameSound(config, h, frame, probability, env);
    }
  }

  lemma WriteSound(h: Host, pcm: Pcm)
    requires Sound(h)
    ensures h.openPart.Some? ==> Sound(WriteOpen(h, pcm))
  {
    if h.openPart.Some? { OutcomesFrame(h, WriteOpen(h, pcm), Live(h.machine)); }
  }

  lemma CloseSessionSound(config: Config, h: Host, env: seq<Await>)
    requires Sound(h)
    ensures var r := CloseSession(config, h, env);
      Sound(r) && !r.machine.mode.InSession() && r.preRoll == []
  {
    var out := ForceFinalize(config, h.machine);
    if h.machine.mode.InSession() {
      EndSound(config, h, h.machine, env);
      var applied := ApplyAll(AfterPush(h, out), out.1, env);
      OutcomesFrame(applied, applied.(preRoll := []), None);
    } else {
      OutcomesFrame(h, AfterPush(h, out).(preRoll := []), None);
    }
  }

  lemma StepSound(config: Config, h: Host, event: Event)
    requires Sound(h)
    ensures Sound(Step(config, h, event))
  {
    match event
    case Frame(frame, p, epoch, gapEnv, env) =>
      if !Stale(frame, epoch) {
        var ready := h;
        if frame.discontinuityBeforeMs > 0 {
          CloseSessionSound(config, h, gapEnv);
          ready := CloseSession(config, h, gapEnv);
        }
        ConsumeSound(config, ready, frame, p, env);
      }
    case CloseNow(env) => CloseSessionSound(config, h, env);
    case Finished(task) => FinishKeeps(h, task, Live(h.machine));
    case Settle(session) => SettleKeeps(h, session, Live(h.machine));
  }

  /** Over every run, with storage failing and finalizers completing at any time. */
  lemma {:induction false} EveryRunSound(config: Config, events: seq<Event>)
    ensures Sound(RunAll(config, events))
  {
    if events != [] {
      EveryRunSound(config, events[..|events| - 1]);
      StepSound(config, RunAll(config, events[..|events| - 1]), events[|events| - 1]);
    }
  }
}
