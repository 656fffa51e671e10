/** Specification of the session state machine (src/sessionizer/machine.ts) as a
    function from machine and frame to machine and intents. */
module SessionMachine {

  import opened Common

  type SessionId = nat

  /** All durations are in milliseconds. */
  datatype Config = Config(
    vadThreshold: real,
    preRollMs: nat,
    speechCandidateMs: nat,
    silenceTimeoutMs: nat,
    maxPartMs: nat,
    minSpeechMs: nat)

  datatype VadFrame = VadFrame(monotonicMs: int, wallMs: int, durationMs: nat, speechProbability: real)

  datatype FinalTiming = FinalTiming(endedWallMs: int, durationMs: int, speechMs: int)

  datatype Intent =
    | SessionStarted(session: SessionId, startedWallMs: int)
    | OpenPart(session: SessionId, index: nat, preRollFrames: nat, preRollMs: int,
               startedWallMs: int, startedMonotonicMs: int)
    | ClosePart(session: SessionId, index: nat, endedWallMs: int, endedMonotonicMs: int,
                finalSession: Option<FinalTiming>)
    | SessionFinalized(session: SessionId, startedWallMs: int, partCount: nat, timing: FinalTiming)
    | SessionRejected(session: SessionId, partCount: nat, timing: FinalTiming)

  // ------------------------------------------------------------ specification

  datatype Session = Session(
    id: SessionId, partIndex: nat, speechMs: nat,
    startedMonotonicMs: int, startedWallMs: int,
    partStartedMonotonicMs: int, lastSpeechMonotonicMs: int)

  datatype Mode = Idle | Candidate(speechMs: nat) | Active(session: Session) | Grace(session: Session)
  {
    predicate InSession() { Active? || Grace? }
  }

  datatype Machine = Machine(mode: Mode, ring: seq<nat>, lastMonotonicMs: int, lastWallMs: int)

  const INITIAL := Machine(Idle, [], 0, 0)

  /** Drops the oldest entries while more than one is held and they exceed the capacity. */
  function Trim(ring: seq<nat>, capacityMs: int): seq<nat> {
    if |ring| > 1 && Sum(ring) > capacityMs then Trim(ring[1..], capacityMs) else ring
  }

  function Push(config: Config, m: Machine, frame: VadFrame, newId: SessionId): (Machine, seq<Intent>) {
    var isSpeech := frame.speechProbability >= config.vadThreshold;
    var seen := m.(lastMonotonicMs := frame.monotonicMs, lastWallMs := frame.wallMs);
    if m.mode.InSession() then Record(config, seen, isSpeech, frame.durationMs)
    else
      Listen(config, seen.(ring := Trim(m.ring + [frame.durationMs], config.preRollMs)),
             isSpeech, frame.durationMs, newId)
  }

  /** A frame outside a session: only speech sustained for the candidate window opens one. */
  function Listen(config: Config, m: Machine, isSpeech: bool, durationMs: nat, newId: SessionId)
    : (Machine, seq<Intent>)
    requires !m.mode.InSession()
  {
    if m.mode.Idle? then (if isSpeech then m.(mode := Candidate(durationMs)) else m, [])
    else if !isSpeech then (m.(mode := Idle), [])
    else if m.mode.speechMs + durationMs >= config.speechCandidateMs then
      Open(m, m.mode.speechMs + durationMs, newId)
    else (m.(mode := Candidate(m.mode.speechMs + durationMs)), [])
  }

  /** A frame inside a session. */
  function Record(config: Config, m: Machine, isSpeech: bool, durationMs: nat): (Machine, seq<Intent>)
    requires m.mode.InSession()
  {
    var s := m.mode.session;
    if isSpeech then Speak(config, m, s, durationMs)
    else if m.mode.Active? then (m.(mode := Grace(s)), [])
    else if m.lastMonotonicMs - s.lastSpeechMonotonicMs >= config.silenceTimeoutMs then Finalize(config, m, s)
    else (m, [])
  }

  function ForceFinalize(config: Config, m: Machine): (Machine, seq<Intent>) {
    if m.mode.InSession() then Finalize(config, m, m.mode.session)
    else (m.(mode := Idle, ring := []), [])
  }

  function Open(m: Machine, speechMs: nat, id: SessionId): (Machine, seq<Intent>) {
    var ringMs := Sum(m.ring);
    var startMono, startWall := m.lastMonotonicMs - ringMs, m.lastWallMs - ringMs;
    ( m.(mode := Active(Session(id, 0, speechMs, startMono, startWall, startMono, m.lastMonotonicMs)),
         ring := []),
      [ SessionStarted(id, startWall),
        OpenPart(id, 0, |m.ring|, ringMs, startWall, startMono) ])
  }

  /** Speech inside a session; a part that has reached its limit is rotated here and only here. */
  function Speak(config: Config, m: Machine, s: Session, durationMs: nat): (Machine, seq<Intent>) {
    var spoken := s.(speechMs := s.speechMs + durationMs, lastSpeechMonotonicMs := m.lastMonotonicMs);
    if m.lastMonotonicMs - s.partStartedMonotonicMs < config.maxPartMs then
      (m.(mode := Active(spoken)), [])
    else
      ( m.(mode := Active(spoken.(partIndex := s.partIndex + 1, partStartedMonotonicMs := m.lastMonotonicMs))),
        [ ClosePart(s.id, s.partIndex, m.lastWallMs, m.lastMonotonicMs, None),
          OpenPart(s.id, s.partIndex + 1, 0, 0, m.lastWallMs, m.lastMonotonicMs) ])
  }

  function Finalize(config: Config, m: Machine, s: Session): (Machine, seq<Intent>) {
    var timing := FinalTiming(m.lastWallMs, m.lastMonotonicMs - s.startedMonotonicMs, s.speechMs);
    ( m.(mode := Idle, ring := []),
      [ ClosePart(s.id, s.partIndex, m.lastWallMs, m.lastMonotonicMs, Some(timing)),
        if s.speechMs < config.minSpeechMs
        then SessionRejected(s.id, s.partIndex + 1, timing)
        else SessionFinalized(s.id, s.startedWallMs, s.partIndex + 1, timing) ])
  }
}
