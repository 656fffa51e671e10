/** The session state machine with the mutable, nullable fields of
    src/sessionizer/machine.ts, proved to compute exactly `SessionMachine`. */
module SessionizerClass {

  import opened Common
  import opened SessionMachine

  datatype State = IDLE | SPEECH_CANDIDATE | ACTIVE | SILENCE_GRACE

  class Sessionizer {
    const config: Config
    var state: State
    var sessionId: Option<SessionId>
    var partIndex: nat
    var ring: seq<nat>
    var ringMs: int
    var candidateSpeechMs: nat
    var speechMs: nat
    var sessionStartedMonotonicMs: Option<int>
    var sessionStartedWallMs: Option<int>
    var partStartedMonotonicMs: Option<int>
    var lastSpeechMonotonicMs: Option<int>
    var lastFrameWallMs: int
    var lastFrameMonotonicMs: int

    /** The nullable fields are set together, exactly while a session is open. */
    ghost predicate Valid()
      reads this
    {
      var live := state == ACTIVE || state == SILENCE_GRACE;
      && ringMs == Sum(ring)
      && (live <==> sessionId.Some?)
      && (live <==> sessionStartedMonotonicMs.Some?)
      && (live <==> sessionStartedWallMs.Some?)
      && (live <==> partStartedMonotonicMs.Some?)
      && (live <==> lastSpeechMonotonicMs.Some?)
    }

    ghost function View(): Machine
      reads this
      requires Valid()
    {
      var mode :=
        match state
        case IDLE => Idle
        case SPEECH_CANDIDATE => Candidate(candidateSpeechMs)
        case ACTIVE => Active(OpenSession())
        case SILENCE_GRACE => Grace(OpenSession());
      Machine(mode, ring, lastFrameMonotonicMs, lastFrameWallMs)
    }

    ghost function OpenSession(): Session
      reads this
      requires Valid() && (state == ACTIVE || state == SILENCE_GRACE)
    {
      Session(sessionId.value, partIndex, speechMs,
              sessionStartedMonotonicMs.value, sessionStartedWallMs.value,
              partStartedMonotonicMs.value, lastSpeechMonotonicMs.value)
    }

    constructor (config: Config)
      ensures Valid() && View() == INITIAL && this.config == config
    {
      this.config := config;
      state := IDLE;
      partIndex, ring, ringMs, candidateSpeechMs, speechMs := 0, [], 0, 0, 0;
      sessionId, sessionStartedMonotonicMs, sessionStartedWallMs := None, None, None;
      partStartedMonotonicMs, lastSpeechMonotonicMs := None, None;
      lastFrameWallMs, lastFrameMonotonicMs := 0, 0;
    }

    method Push(frame: VadFrame, newId: SessionId) returns (intents: seq<Intent>)
      requires Valid()
      modifies this
      ensures Valid()
      ensures (View(), intents) == SessionMachine.Push(config, old(View()), frame, newId)
    {
      var isSpeech := frame.speechProbability >= config.vadThreshold;
      Observe(frame);
      if state == IDLE || state == SPEECH_CANDIDATE {
        BufferPreRoll(frame.durationMs);
        intents := PushListening(isSpeech, frame.durationMs, newId);
      } else {
        intents := PushRecording(isSpeech, frame.durationMs);
      }
    }

    method Observe(frame: VadFrame)
      requires Valid()
      modifies this`lastFrameWallMs, this`lastFrameMonotonicMs
      ensures Valid() && View() == old(View()).(lastMonotonicMs := frame.monotonicMs, lastWallMs := frame.wallMs)
      ensures lastFrameWallMs == frame.wallMs && lastFrameMonotonicMs == frame.monotonicMs
    {
      lastFrameWallMs := frame.wallMs;
      lastFrameMonotonicMs := frame.monotonicMs;
    }

    /** The IDLE and SPEECH_CANDIDATE cases of `push`. */
    method PushListening(isSpeech: bool, durationMs: nat, newId: SessionId) returns (intents: seq<Intent>)
      requires Valid() && (state == IDLE || state == SPEECH_CANDIDATE)
      modifies this
      ensures Valid()
      ensures (View(), intents) == Listen(config, old(View()), isSpeech, durationMs, newId)
    {
      intents := [];
      if state == IDLE {
        if isSpeech {
          state := SPEECH_CANDIDATE;
          candidateSpeechMs := durationMs;
        }
      } else if !isSpeech {
        state := IDLE;
        candidateSpeechMs := 0;
      } else {
        candidateSpeechMs := candidateSpeechMs + durationMs;
        if candidateSpeechMs >= config.speechCandidateMs {
          intents := StartSession(newId);
        }
      }
    }

    /** The ACTIVE and SILENCE_GRACE cases of `push`. */
    method PushRecording(isSpeech: bool, durationMs: nat) returns (intents: seq<Intent>)
      requires Valid() && (state == ACTIVE || state == SILENCE_GRACE)
      modifies this
      ensures Valid()
      ensures (View(), intents) == Record(config, old(View()), isSpeech, durationMs)
    {
      intents := [];
      if isSpeech {
        state := ACTIVE;
        speechMs := speechMs + durationMs;
        lastSpeechMonotonicMs := Some(lastFrameMonotonicMs);
        intents := MaybeRotate();
      } else if state == ACTIVE {
        state := SILENCE_GRACE;
      } else if lastFrameMonotonicMs - lastSpeechMonotonicMs.value >= config.silenceTimeoutMs {
        intents := CloseSession();
      }
    }

    method ForceFinalize() returns (intents: seq<Intent>)
      requires Valid()
      modifies this
      ensures Valid()
      ensures (View(), intents) == SessionMachine.ForceFinalize(config, old(View()))
    {
      if state != ACTIVE && state != SILENCE_GRACE {
        ResetToIdle();
        return [];
      }
      intents := CloseSession();
    }

    method BufferPreRoll(durationMs: nat)
      requires Valid()
      modifies this`ring, this`ringMs
      ensures Valid() && ring == Trim(old(ring) + [durationMs], config.preRollMs)
      ensures View() == old(View()).(ring := ring)
    {
      assert (ring + [durationMs])[..|ring|] == ring;
      ring := ring + [durationMs];
      ringMs := ringMs + durationMs;
      while |ring| > 1 && ringMs > config.preRollMs
        invariant ringMs == Sum(ring)
        invariant ring != []
        invariant Trim(ring, config.preRollMs) == Trim(old(ring) + [durationMs], config.preRollMs)
      {
        SumFirst(ring);
        ringMs := ringMs - ring[0];
        ring := ring[1..];
      }
    }

    method DrainPreRoll() returns (frames: nat, ms: int)
      requires Valid()
      modifies this`ring, this`ringMs
      ensures Valid() && ring == [] && frames == |old(ring)| && ms == Sum(old(ring))
    {
      frames, ms := |ring|, ringMs;
      ring, ringMs := [], 0;
    }

    method StartSession(newId: SessionId) returns (intents: seq<Intent>)
      requires Valid() && state == SPEECH_CANDIDATE
      modifies this
      ensures Valid()
      ensures (View(), intents) == SessionMachine.Open(old(View()), old(candidateSpeechMs), newId)
    {
      var startedMonotonicMs := lastFrameMonotonicMs - ringMs;
      var startedWallMs := lastFrameWallMs - ringMs;
      var frames, ms := DrainPreRoll();
      state, sessionId, partIndex := ACTIVE, Some(newId), 0;
      speechMs, candidateSpeechMs := candidateSpeechMs, 0;
      sessionStartedMonotonicMs, sessionStartedWallMs := Some(startedMonotonicMs), Some(startedWallMs);
      partStartedMonotonicMs, lastSpeechMonotonicMs := Some(startedMonotonicMs), Some(lastFrameMonotonicMs);
      intents := [SessionStarted(newId, startedWallMs),
                  OpenPart(newId, 0, frames, ms, startedWallMs, startedMonotonicMs)];
    }

    method MaybeRotate() returns (intents: seq<Intent>)
      requires Valid() && state == ACTIVE
      modifies this`partIndex, this`partStartedMonotonicMs
      ensures Valid()
      ensures
        var s := old(OpenSession());
        (View(), intents) ==
        if lastFrameMonotonicMs - s.partStartedMonotonicMs < config.maxPartMs then (old(View()), [])
        else
          ( old(View()).(
              mode := Active(s.(partIndex := s.partIndex + 1, partStartedMonotonicMs := lastFrameMonotonicMs))),
            [ ClosePart(s.id, s.partIndex, lastFrameWallMs, lastFrameMonotonicMs, None),
              OpenPart(s.id, s.partIndex + 1, 0, 0, lastFrameWallMs, lastFrameMonotonicMs) ])
    {
      intents := [];
      if lastFrameMonotonicMs - partStartedMonotonicMs.value < config.maxPartMs { return; }
      intents := [ClosePart(sessionId.value, partIndex, lastFrameWallMs, lastFrameMonotonicMs, None),
                  OpenPart(sessionId.value, partIndex + 1, 0, 0, lastFrameWallMs, lastFrameMonotonicMs)];
      partIndex := partIndex + 1;
      partStartedMonotonicMs := Some(lastFrameMonotonicMs);
    }

    method CloseSession() returns (intents: seq<Intent>)
      requires Valid() && (state == ACTIVE || state == SILENCE_GRACE)
      modifies this
      ensures Valid()
      ensures (View(), intents) == SessionMachine.Finalize(config, old(View()), old(OpenSession()))
    {
      var durationMs := lastFrameMonotonicMs - sessionStartedMonotonicMs.value;
      var timing := FinalTiming(lastFrameWallMs, durationMs, speechMs);
      var close := ClosePart(sessionId.value, partIndex, lastFrameWallMs, lastFrameMonotonicMs, Some(timing));
      if speechMs < config.minSpeechMs {
        intents := [close, SessionRejected(sessionId.value, partIndex + 1, timing)];
      } else {
        intents := [close, SessionFinalized(sessionId.value, sessionStartedWallMs.value, partIndex + 1, timing)];
      }
      ResetToIdle();
    }

    method ResetToIdle()
      modifies this
      ensures Valid()
      ensures View() == Machine(Idle, [], old(lastFrameMonotonicMs), old(lastFrameWallMs))
    {
      state := IDLE;
      sessionId := None;
      partIndex, speechMs, candidateSpeechMs := 0, 0, 0;
      sessionStartedMonotonicMs, sessionStartedWallMs := None, None;
      partStartedMonotonicMs, lastSpeechMonotonicMs := None, None;
      ring, ringMs := [], 0;
    }
  }
}
