/** The recorder with the mutable fields of src/sessionizer/recorder.ts, proved to do
    exactly what `RecorderModel` specifies. An `Await` argument stands for what
    happens while the source awaits: finalizers completing, storage failing. */
module RecorderClass {

  import opened Common
  import opened SessionMachine
  import opened SessionizerClass
  import opened RecorderModel
  import opened RecorderSafety

  /** Tasks grouped by session, without empty groups. */
  ghost predicate GroupsMatch(groups: map<SessionId, set<TaskId>>, owners: map<TaskId, SessionId>) {
    && (forall id :: id in groups ==>
          groups[id] != {} && forall t :: t in groups[id] <==> t in owners && owners[t] == id)
    && (forall t :: t in owners ==> owners[t] in groups)
  }

  lemma GroupsAfterAdd(groups: map<SessionId, set<TaskId>>, owners: map<TaskId, SessionId>, task: TaskId, id: SessionId)
    requires GroupsMatch(groups, owners) && task !in owners
    ensures GroupsMatch(groups[id := (if id in groups then groups[id] else {}) + {task}], owners[task := id])
  {
  }

  class Recorder {
    const config: Config
    const sessionizer: Sessionizer
    var nextSession: SessionId
    var preRoll: seq<CaptureFrame>
    var openPart: Option<Part>
    var discardingSessionId: Option<SessionId>
    var reservedFinalizers: int
    var storageFinalizers: set<TaskId>
    var storageFinalizersBySession: map<SessionId, set<TaskId>>
    /** The session each running finalizer was started for, as its closure remembers it. */
    var finalizerSession: map<TaskId, SessionId>
    var nextTask: TaskId
    var pendingSessionOutcomes: map<SessionId, Settlement>
    var settled: seq<Settlement>
    var detached: seq<Part>
    var reservationViolated: bool

    /** The set of running finalizers and its grouping by session agree. */
    ghost predicate Grouped()
      reads this
    {
      && storageFinalizers == finalizerSession.Keys
      && (forall t :: t in finalizerSession ==> t < nextTask)
      && GroupsMatch(storageFinalizersBySession, finalizerSession)
    }

    ghost predicate Valid()
      reads this, sessionizer
    {
      sessionizer.Valid() && sessionizer.config == config && Grouped()
    }

    ghost function View(): Host
      reads this, sessionizer
      requires Valid()
    {
      Host(sessionizer.View(), nextSession, preRoll, openPart, discardingSessionId, reservedFinalizers,
           finalizerSession, nextTask, pendingSessionOutcomes, settled, detached, reservationViolated)
    }

    constructor (config: Config)
      ensures Valid() && View() == START && fresh(sessionizer) && this.config == config
    {
      this.config := config;
      sessionizer := new Sessionizer(config);
      nextSession, preRoll, openPart, discardingSessionId := 0, [], None, None;
      reservedFinalizers, storageFinalizers, storageFinalizersBySession, finalizerSession := 0, {}, map[], map[];
      nextTask, pendingSessionOutcomes, settled, detached, reservationViolated := 0, map[], [], [], false;
    }

    method HandleFrame(
      frame: CaptureFrame, probability: real, currentEpoch: Option<int>, gapEnv: seq<Await>, env: seq<Await>)
      requires Valid()
      modifies this, sessionizer
      ensures Valid()
      ensures View() == RecorderModel.HandleFrame(config, old(View()), frame, probability, currentEpoch, gapEnv, env)
    {
      if frame.streamEpoch.Some? && currentEpoch.Some? && frame.streamEpoch != currentEpoch {
        return;
      }
      if frame.discontinuityBeforeMs > 0 {
        CloseOpenSession(gapEnv);
      }
      Consume(frame, probability, env);
    }

    method Consume(frame: CaptureFrame, probability: real, env: seq<Await>)
      requires Valid()
      modifies this, sessionizer
      ensures Valid()
      ensures View() == RecorderModel.Consume(config, old(View()), frame, probability, env)
    {
      var intents, bufferedCurrentFrame := Admit(frame, probability);
      ApplyIntents(intents, env);
      var currentFrameWasReplayed := bufferedCurrentFrame && OpensPart(intents);
      if openPart.Some? && !currentFrameWasReplayed {
        WriteFrame(frame.pcm);
      }
    }

    /** Shows the frame to the machine and, while no part is open, keeps it as pre-roll. */
    method Admit(frame: CaptureFrame, probability: real) returns (intents: seq<Intent>, buffered: bool)
      requires Valid()
      modifies this, sessionizer
      ensures Valid()
      ensures
        var out := Push(config, old(View()).machine, VadOf(frame, probability), old(nextSession));
        var pushed := AfterPush(old(View()), out);
        && intents == out.1
        && buffered == (old(openPart).None? && old(discardingSessionId).None?)
        && View() == if buffered
                     then pushed.(preRoll := TrimFrames(old(preRoll) + [frame], config.preRollMs)) else pushed
    {
      intents := Show(frame, probability);
      buffered := openPart.None? && discardingSessionId.None?;
      if buffered {
        BufferPreRoll(frame);
      }
    }

    /** Shows the frame to the machine, which may start a session. */
    method Show(frame: CaptureFrame, probability: real) returns (intents: seq<Intent>)
      requires Valid()
      modifies this`nextSession, sessionizer
      ensures Valid()
      ensures
        var out := Push(config, old(View()).machine, VadOf(frame, probability), old(nextSession));
        intents == out.1 && View() == AfterPush(old(View()), out)
    {
      intents := sessionizer.Push(VadOf(frame, probability), nextSession);
      if Starts(intents) { nextSession := nextSession + 1; }
    }

    method WriteFrame(pcm: Pcm)
      requires Valid() && openPart.Some?
      modifies this`openPart
      ensures Valid() && View() == WriteOpen(old(View()), pcm)
    {
      openPart := Some(openPart.value.(frames := openPart.value.frames + [pcm]));
    }

    method BufferPreRoll(frame: CaptureFrame)
      modifies this`preRoll
      ensures preRoll == TrimFrames(old(preRoll) + [frame], config.preRollMs)
    {
      preRoll := preRoll + [frame];
      var held := Sum(Durations(preRoll));
      while |preRoll| > 1 && held > config.preRollMs
        invariant held == Sum(Durations(preRoll))
        invariant TrimFrames(preRoll, config.preRollMs) == TrimFrames(old(preRoll) + [frame], config.preRollMs)
      {
        assert Durations(preRoll[1..]) == Durations(preRoll)[1..];
        SumFirst(Durations(preRoll));
        held := held - preRoll[0].durationMs;
        preRoll := preRoll[1..];
      }
    }

    method CloseOpenSession(env: seq<Await>)
      requires Valid()
      modifies this, sessionizer
      ensures Valid()
      ensures View() == RecorderModel.CloseSession(config, old(View()), env)
    {
      var live := sessionizer.sessionId.Some?;
      var intents := sessionizer.ForceFinalize();
      if live {
        ApplyIntents(intents, env);
        if openPart.Some? { CloseOpenPart(false); }
      }
      preRoll := [];
    }

    method ApplyIntents(intents: seq<Intent>, env: seq<Await>)
      requires Valid()
      modifies this
      ensures Valid()
      ensures View() == ApplyAll(old(View()), intents, env)
    {
      var rest := env;
      for i := 0 to |intents|
        invariant Valid()
        invariant ApplyAll(View(), intents[i..], rest) == ApplyAll(old(View()), intents, env)
      {
        assert intents[i..][1..] == intents[i + 1..];
        ApplyIntent(intents[i], Next(rest));
        rest := Rest(rest);
      }
    }

    method ApplyIntent(intent: Intent, await: Await)
      requires Valid()
      modifies this
      ensures Valid()
      ensures View() == RecorderModel.ApplyIntent(old(View()), intent, await)
    {
      for i := 0 to |await.finished|
        invariant Valid()
        invariant FinishAll(View(), await.finished[i..]) == FinishAll(old(View()), await.finished)
      {
        assert await.finished[i..][1..] == await.finished[i + 1..];
        StorageFinalizerFinished(await.finished[i]);
      }
      match intent {
        case SessionStarted(_, _) =>
        case OpenPart(_, _, _, _, _, _) => OpenNewPart(intent, await.storageFails);
        case ClosePart(_, _, _, _, _) => CloseOpenPart(await.storageFails);
        case SessionFinalized(_, _, _, _) => DeferOrSettleSessionOutcome(intent);
        case SessionRejected(_, _, _) => DeferOrSettleSessionOutcome(intent);
      }
    }

    /** An encoder without a durable row: its slot reaps it, and the rest of the session
        is dropped. */
    method OpenUnregistered(session: SessionId)
      requires Valid()
      modifies this
      ensures Valid()
      ensures
        var h := old(View());
        View() == Track(h.(reserved := h.reserved + 1, discarding := Some(session), preRoll := []), session)
    {
      reservedFinalizers := reservedFinalizers + 1;
      discardingSessionId, preRoll := Some(session), [];
      TrackStorageFinalizer(session);
    }

    method OpenNewPart(intent: Intent, storageFails: bool)
      requires Valid() && intent.OpenPart?
      modifies this
      ensures Valid()
      ensures View() == RecorderModel.OpenNewPart(old(View()), intent, storageFails)
    {
      if discardingSessionId == Some(intent.session) { return; }
      if reservedFinalizers >= FINALIZER_CAPACITY {
        discardingSessionId, preRoll := Some(intent.session), [];
        return;
      }
      if storageFails {
        OpenUnregistered(intent.session);
        return;
      }
      reservedFinalizers := reservedFinalizers + 1;
      var replayed := if intent.preRollFrames > 0 then Pcms(LastN(preRoll, intent.preRollFrames)) else [];
      openPart := Some(Part(intent.session, intent.index, intent.startedMonotonicMs, replayed, Recording));
      preRoll := [];
    }

    method CloseOpenPart(storageFails: bool)
      requires Valid()
      modifies this
      ensures Valid()
      ensures View() == RecorderModel.CloseOpenPart(old(View()), storageFails)
    {
      if openPart.None? { return; }
      var open := openPart.value;
      openPart := None;
      detached := detached + [open.(fate := if storageFails then Aborted else Journaled)];
      TrackStorageFinalizer(open.session);
    }

    method DeferOrSettleSessionOutcome(outcome: Intent)
      requires Valid()
      modifies this
      ensures Valid()
      ensures View() == DeferOrSettle(old(View()), outcome)
    {
      var storageDiscarded := discardingSessionId == Some(outcome.session);
      if storageDiscarded { discardingSessionId := None; }
      if outcome.session in storageFinalizersBySession {
        pendingSessionOutcomes := pendingSessionOutcomes[outcome.session := Settlement(outcome, storageDiscarded)];
        return;
      }
      settled := settled + [Settlement(outcome, storageDiscarded)];
    }

    method SettleDeferredSessionOutcome(session: SessionId)
      requires Valid()
      modifies this`settled, this`pendingSessionOutcomes
      ensures Valid()
      ensures View() == SettleDeferred(old(View()), session)
    {
      if session in storageFinalizersBySession || session !in pendingSessionOutcomes { return; }
      settled := settled + [pendingSessionOutcomes[session]];
      pendingSessionOutcomes := pendingSessionOutcomes - {session};
    }

    method TrackStorageFinalizer(session: SessionId)
      requires Valid()
      modifies this
      ensures Valid()
      ensures View() == Track(old(View()), session)
    {
      assert |storageFinalizers| == |finalizerSession.Keys| == |finalizerSession|;
      if |storageFinalizers| >= FINALIZER_CAPACITY {
        reservationViolated := true;
        return;
      }
      Register(session);
    }

    method Register(session: SessionId)
      requires Valid()
      modifies this`storageFinalizers, this`storageFinalizersBySession, this`finalizerSession, this`nextTask
      ensures Valid()
      ensures finalizerSession == old(finalizerSession)[old(nextTask) := session] && nextTask == old(nextTask) + 1
    {
      var group := if session in storageFinalizersBySession then storageFinalizersBySession[session] else {};
      GroupsAfterAdd(storageFinalizersBySession, finalizerSession, nextTask, session);
      storageFinalizers := storageFinalizers + {nextTask};
      storageFinalizersBySession := storageFinalizersBySession[session := group + {nextTask}];
      finalizerSession := finalizerSession[nextTask := session];
      nextTask := nextTask + 1;
    }

    method StorageFinalizerFinished(task: TaskId)
      requires Valid()
      modifies this`storageFinalizers, this`storageFinalizersBySession, this`finalizerSession, this`reservedFinalizers
      ensures Valid()
      ensures storageFinalizers == old(storageFinalizers) - {task}
      ensures View() == Finish(old(View()), task)
    {
      if task !in storageFinalizers { return; }
      var session := finalizerSession[task];
      storageFinalizers := storageFinalizers - {task};
      finalizerSession := finalizerSession - {task};
      var group := storageFinalizersBySession[session] - {task};
      storageFinalizersBySession :=
        if group == {} then storageFinalizersBySession - {session} else storageFinalizersBySession[session := group];
      reservedFinalizers := reservedFinalizers - 1;
    }

    /** Shutdown: every finalizer completes, then every outcome still waiting is settled. */
    method DrainStorageFinalizers()
      requires Valid() && Sound(View())
      modifies this`storageFinalizers, this`storageFinalizersBySession, this`finalizerSession,
        this`reservedFinalizers, this`settled, this`pendingSessionOutcomes
      ensures Valid() && Sound(View())
      ensures storageFinalizers == {} && pendingSessionOutcomes == map[]
      ensures View().machine == old(View()).machine && nextSession == old(nextSession)
      ensures old(settled) <= settled
    {
      AwaitFinalizers();
      while pendingSessionOutcomes != map[]
        invariant Valid() && Sound(View())
        invariant storageFinalizers == {} && View().machine == old(View()).machine
        invariant old(settled) <= settled
        decreases pendingSessionOutcomes.Keys
      {
        var session :| session in pendingSessionOutcomes;
        SettleWaiting(session);
      }
    }

    method SettleWaiting(session: SessionId)
      requires Valid() && Sound(View()) && storageFinalizers == {} && session in pendingSessionOutcomes
      modifies this`settled, this`pendingSessionOutcomes
      ensures Valid() && Sound(View())
      ensures pendingSessionOutcomes == old(pendingSessionOutcomes) - {session} && old(settled) <= settled
    {
      SettleKeeps(View(), session, Live(sessionizer.View()));
      SettleDeferredSessionOutcome(session);
    }

    method AwaitFinalizers()
      requires Valid() && Sound(View())
      modifies this`storageFinalizers, this`storageFinalizersBySession, this`finalizerSession, this`reservedFinalizers
      ensures Valid() && Sound(View()) && storageFinalizers == {}
    {
      while storageFinalizers != {}
        invariant Valid() && Sound(View())
        decreases storageFinalizers
      {
        var task :| task in storageFinalizers;
        FinishKeeps(View(), task, Live(sessionizer.View()));
        StorageFinalizerFinished(task);
      }
    }

    /** The end of `run`: close whatever is open, then drain. Every session that ever
        started has been settled exactly once. */
    method Stop(env: seq<Await>)
      requires Valid() && Sound(View())
      modifies this, sessionizer
      ensures Valid() && Sound(View()) && !View().machine.mode.InSession()
      ensures forall id: nat :: id < nextSession ==> IsSettled(View(), id)
      ensures forall j, k :: 0 <= j < k < |settled| ==> settled[j].outcome.session != settled[k].outcome.session
    {
      CloseSessionSound(config, View(), env);
      CloseOpenSession(env);
      DrainStorageFinalizers();
    }
  }
}
