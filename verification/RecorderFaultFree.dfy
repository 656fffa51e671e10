/** When storage gives a session up, and what a run without it has written: the other
    half of conservation. */
module RecorderFaultFree {

  import opened Common
  import opened SessionMachine
  import opened RecorderModel
  import opened RecorderSafety
  import opened RecorderConservation

  // ------------------------------------------------------------ opens that succeed

  /** A part can be opened: a slot is free after the awaited finalizers, and storage takes it. */
  predicate RoomFor(h: Host, intent: Intent, await: Await) {
    intent.OpenPart? ==> FinishAll(h, await.finished).reserved < FINALIZER_CAPACITY && !await.storageFails
  }

  predicate RoomForAll(h: Host, intents: seq<Intent>, env: seq<Await>)
    decreases intents
  {
    intents != [] ==>
      && RoomFor(h, intents[0], Next(env))
      && RoomForAll(ApplyIntent(h, intents[0], Next(env)), intents[1..], Rest(env))
  }

  /** The host when the intents of a frame are applied. */
  function Pushed(config: Config, h: Host, frame: CaptureFrame, probability: real): Host {
    var pushed := AfterPush(h, Push(config, h.machine, VadOf(frame, probability), h.nextSession));
    if h.openPart.None? && h.discarding.None? then
      pushed.(preRoll := TrimFrames(h.preRoll + [frame], config.preRollMs))
    else pushed
  }

  /** Every part the event opens can be opened; closing opens none. */
  predicate RoomForEvent(config: Config, h: Host, event: Event) {
    match event
    case Frame(frame, p, epoch, gapEnv, env) =>
      !Stale(frame, epoch) ==>
        var ready := if frame.discontinuityBeforeMs > 0 then CloseSession(config, h, gapEnv) else h;
        var intents := Push(config, ready.machine, VadOf(frame, p), ready.nextSession).1;
        RoomForAll(Pushed(config, ready, frame, p), intents, env)
    case CloseNow(_) => true
    case Finished(_) => true
    case Settle(_) => true
  }

  predicate RoomForRun(config: Config, events: seq<Event>) {
    events != [] ==>
      && RoomForRun(config, events[..|events| - 1])
      && RoomForEvent(config, RunAll(config, events[..|events| - 1]), events[|events| - 1])
  }

  // --------------------------------------------------------------- nothing given up

  ghost predicate NoneGivenUp(h: Host) {
    && h.discarding.None?
    && (forall id :: id in h.pending ==> !h.pending[id].storageDiscarded)
    && forall k :: 0 <= k < |h.settled| ==> !h.settled[k].storageDiscarded
  }

  predicate IsOutcome(intent: Intent) {
    intent.SessionFinalized? || intent.SessionRejected?
  }

  lemma SettlingKeepsGivenUp(h: Host, last: Settlement)
    ensures NoneGivenUp(h.(settled := h.settled + [last])) <==> NoneGivenUp(h) && !last.storageDiscarded
  {
    var r := h.(settled := h.settled + [last]);
    assert r.settled[|h.settled|] == last;
    if NoneGivenUp(r) {
      forall k | 0 <= k < |h.settled| ensures !h.settled[k].storageDiscarded {
        assert r.settled[k] == h.settled[k];
      }
    }
  }

  lemma PendingKeepsGivenUp(h: Host, id: SessionId, last: Settlement)
    requires id !in h.pending
    ensures NoneGivenUp(h.(pending := h.pending[id := last])) <==> NoneGivenUp(h) && !last.storageDiscarded
  {
    var r := h.(pending := h.pending[id := last]);
    if NoneGivenUp(r) {
      forall other | other in h.pending ensures !h.pending[other].storageDiscarded {
        assert r.pending[other] == h.pending[other];
      }
      assert r.pending[id] == last;
    }
  }

  lemma OutcomeGivesUp(h: Host, outcome: Intent)
    requires IsOutcome(outcome) && outcome.session !in h.pending
    ensures NoneGivenUp(DeferOrSettle(h, outcome)) <==> NoneGivenUp(h)
  {
    var discarded := h.discarding == Some(outcome.session);
    var cleared := if discarded then h.(discarding := None) else h;
    if outcome.session in cleared.finalizers.Values {
      PendingKeepsGivenUp(cleared, outcome.session, Settlement(outcome, discarded));
    } else {
      SettlingKeepsGivenUp(cleared, Settlement(outcome, discarded));
    }
  }

  /** A session is given up by an intent exactly when it opens a part without room. */
  lemma IntentGivesUp(h: Host, intent: Intent, await: Await)
    requires IsOutcome(intent) ==> intent.session !in h.pending
    ensures NoneGivenUp(ApplyIntent(h, intent, await)) <==> NoneGivenUp(h) && RoomFor(h, intent, await)
    ensures !IsOutcome(intent) ==> ApplyIntent(h, intent, await).pending == h.pending
  {
    FinishAllFrame(h, await.finished);
    if IsOutcome(intent) { OutcomeGivesUp(FinishAll(h, await.finished), intent); }
  }

  lemma {:induction false} IntentsGiveUp(h: Host, intents: seq<Intent>, env: seq<Await>)
    requires forall k :: 0 <= k < |intents| && IsOutcome(intents[k]) ==>
      k == |intents| - 1 && intents[k].session !in h.pending
    ensures NoneGivenUp(ApplyAll(h, intents, env)) <==> NoneGivenUp(h) && RoomForAll(h, intents, env)
    decreases intents
  {
    if intents != [] {
      IntentGivesUp(h, intents[0], Next(env));
      IntentsGiveUp(ApplyIntent(h, intents[0], Next(env)), intents[1..], Rest(env));
    }
  }

  // -------------------------------------------------------------------- whole runs

  lemma PushOutcomes(config: Config, m: Machine, frame: VadFrame, newId: SessionId)
    ensures var out := Push(config, m, frame, newId).1;
      forall k :: 0 <= k < |out| && IsOutcome(out[k]) ==>
        k == |out| - 1 && m.mode.InSession() && out[k].session == m.mode.session.id
  {
  }

  lemma ConsumeGivesUp(config: Config, h: Host, frame: CaptureFrame, probability: real, env: seq<Await>)
    requires Sound(h)
    ensures NoneGivenUp(Consume(config, h, frame, probability, env)) <==>
      && NoneGivenUp(h)
      && RoomForAll(Pushed(config, h, frame, probability),
                    Push(config, h.machine, VadOf(frame, probability), h.nextSession).1, env)
  {
    PushOutcomes(config, h.machine, VadOf(frame, probability), h.nextSession);
    IntentsGiveUp(Pushed(config, h, frame, probability),
                  Push(config, h.machine, VadOf(frame, probability), h.nextSession).1, env);
  }

  lemma ClosingOpensNothing(h: Host, a: Intent, b: Intent, env: seq<Await>)
    requires a.ClosePart? && IsOutcome(b)
    ensures RoomForAll(h, [a, b], env)
  {
    assert [a, b][1..] == [b];
  }

  lemma CloseSessionGivesUp(config: Config, h: Host, env: seq<Await>)
    requires Sound(h)
    ensures NoneGivenUp(CloseSession(config, h, env)) <==> NoneGivenUp(h)
  {
    if h.machine.mode.InSession() {
      var out := ForceFinalize(config, h.machine);
      assert out.1 == [out.1[0], out.1[1]];
      ClosingOpensNothing(AfterPush(h, out), out.1[0], out.1[1], env);
      IntentsGiveUp(AfterPush(h, out), out.1, env);
    }
  }

  lemma SettleGivesUp(h: Host, session: SessionId)
    ensures NoneGivenUp(SettleDeferred(h, session)) <==> NoneGivenUp(h)
  {
    if session !in h.finalizers.Values && session in h.pending {
      var left := h.(pending := h.pending - {session});
      assert left.pending[session := h.pending[session]] == h.pending;
      PendingKeepsGivenUp(left, session, h.pending[session]);
      SettlingKeepsGivenUp(left, h.pending[session]);
    }
  }

  lemma EventGivesUp(config: Config, h: Host, event: Event)
    requires Sound(h)
    ensures NoneGivenUp(Step(config, h, event)) <==> NoneGivenUp(h) && RoomForEvent(config, h, event)
  {
    match event
    case Frame(frame, p, epoch, gapEnv, env) =>
      if !Stale(frame, epoch) {
        CloseSessionSound(config, h, gapEnv);
        CloseSessionGivesUp(config, h, gapEnv);
        var ready := if frame.discontinuityBeforeMs > 0 then CloseSession(config, h, gapEnv) else h;
        ConsumeGivesUp(config, ready, frame, p, env);
      }
    case CloseNow(env) => CloseSessionGivesUp(config, h, env);
    case Finished(task) =>
    case Settle(session) => SettleGivesUp(h, session);
  }

  /** Storage gives a session up exactly in the runs where a part was opened without a free
      slot or its open failed. */
  lemma {:induction false} NoneGivenUpIff(config: Config, events: seq<Event>)
    ensures NoneGivenUp(RunAll(config, events)) <==> RoomForRun(config, events)
  {
    if events != [] {
      EveryRunSound(config, events[..|events| - 1]);
      NoneGivenUpIff(config, events[..|events| - 1]);
      EventGivesUp(config, RunAll(config, events[..|events| - 1]), events[|events| - 1]);
    }
  }

  /** With room for every part, each session's parts hold all of its audio, every frame once. */
  lemma EveryFrameWrittenOnce(config: Config, events: seq<Event>, id: nat)
    requires RoomForRun(config, events)
    ensures var l := AccountAll(config, events);
      id < |l.spans| ==>
        Ordered(l) && Written(Lane(RunAll(config, events)), id) == l.fed[l.spans[id].from..l.spans[id].to]
  {
    NoneGivenUpIff(config, events);
    EveryRunConserves(config, events);
    if id < |AccountAll(config, events).spans| {
      assert Owns(RunAll(config, events), AccountAll(config, events), id);
    }
  }
}
