/** Specification of the recorder that hosts the session machine
    (src/sessionizer/recorder.ts): it applies the machine's intents, keeps its own
    pre-roll of raw frames, and hands closed parts to at most two background
    finalizers that complete whenever they like. */
module RecorderModel {

  import opened Common
  import opened SessionMachine

  const FINALIZER_CAPACITY := 2

  type Pcm = seq<int>

  datatype CaptureFrame = CaptureFrame(
    pcm: Pcm, monotonicMs: int, wallMs: int, durationMs: nat,
    streamEpoch: Option<int>, discontinuityBeforeMs: int)

  /** What became of a part once it left the capture lane. */
  datatype Fate = Recording | Journaled | Aborted

  datatype Part = Part(session: SessionId, index: nat, startedMonotonicMs: int, frames: seq<Pcm>, fate: Fate)

  datatype Settlement = Settlement(outcome: Intent, storageDiscarded: bool)

  type TaskId = nat

  datatype Host = Host(
    machine: Machine,
    nextSession: SessionId,
    preRoll: seq<CaptureFrame>,
    openPart: Option<Part>,
    discarding: Option<SessionId>,
    reserved: int,
    finalizers: map<TaskId, SessionId>,
    nextTask: TaskId,
    pending: map<SessionId, Settlement>,
    settled: seq<Settlement>,
    detached: seq<Part>,
    violated: bool)

  const START := Host(INITIAL, 0, [], None, None, 0, map[], 0, map[], [], [], false)

  /** What happens while one intent is awaited: finalizers that finish first, and
      whether the storage operation of the intent itself fails. */
  datatype Await = Await(finished: seq<TaskId>, storageFails: bool)

  const QUIET := Await([], false)

  function Next(env: seq<Await>): Await { if env == [] then QUIET else env[0] }

  function Rest(env: seq<Await>): seq<Await> { if env == [] then [] else env[1..] }

  // ------------------------------------------------------------------ finalizers

  function Finish(h: Host, task: TaskId): Host {
    if task in h.finalizers then h.(finalizers := h.finalizers - {task}, reserved := h.reserved - 1) else h
  }

  function FinishAll(h: Host, tasks: seq<TaskId>): Host
    decreases tasks
  {
    if tasks == [] then h else FinishAll(Finish(h, tasks[0]), tasks[1..])
  }

  /** The capacity check of the source throws here; `violated` records that it did. */
  function Track(h: Host, session: SessionId): Host {
    if |h.finalizers| >= FINALIZER_CAPACITY then h.(violated := true)
    else h.(finalizers := h.finalizers[h.nextTask := session], nextTask := h.nextTask + 1)
  }

  function SettleDeferred(h: Host, session: SessionId): Host {
    if session in h.finalizers.Values || session !in h.pending then h
    else h.(settled := h.settled + [h.pending[session]], pending := h.pending - {session})
  }

  // --------------------------------------------------------------------- intents

  function LastN<T>(s: seq<T>, n: nat): seq<T> {
    if n <= |s| then s[|s| - n..] else s
  }

  function Pcms(frames: seq<CaptureFrame>): seq<Pcm> {
    seq(|frames|, i requires 0 <= i < |frames| => frames[i].pcm)
  }

  function OpenNewPart(h: Host, intent: Intent, storageFails: bool): Host
    requires intent.OpenPart?
  {
    if h.discarding == Some(intent.session) then h
    else if h.reserved >= FINALIZER_CAPACITY then
      h.(discarding := Some(intent.session), preRoll := [])
    else if storageFails then
      Track(h.(reserved := h.reserved + 1, discarding := Some(intent.session), preRoll := []), intent.session)
    else
      var replayed := if intent.preRollFrames > 0 then Pcms(LastN(h.preRoll, intent.preRollFrames)) else [];
      h.(reserved := h.reserved + 1, preRoll := [],
         openPart := Some(Part(intent.session, intent.index, intent.startedMonotonicMs, replayed, Recording)))
  }

  function CloseOpenPart(h: Host, storageFails: bool): Host {
    if h.openPart.None? then h
    else
      var part := h.openPart.value.(fate := if storageFails then Aborted else Journaled);
      Track(h.(openPart := None, detached := h.detached + [part]), part.session)
  }

  function DeferOrSettle(h: Host, outcome: Intent): Host {
    var discarded := h.discarding == Some(outcome.session);
    var cleared := if discarded then h.(discarding := None) else h;
    var settlement := Settlement(outcome, discarded);
    if outcome.session in cleared.finalizers.Values then
      cleared.(pending := cleared.pending[outcome.session := settlement])
    else cleared.(settled := cleared.settled + [settlement])
  }

  function ApplyIntent(h: Host, intent: Intent, await: Await): Host {
    var ready := FinishAll(h, await.finished);
    match intent
    case SessionStarted(_, _) => ready
    case OpenPart(_, _, _, _, _, _) => OpenNewPart(ready, intent, await.storageFails)
    case ClosePart(_, _, _, _, _) => CloseOpenPart(ready, await.storageFails)
    case SessionFinalized(_, _, _, _) => DeferOrSettle(ready, intent)
    case SessionRejected(_, _, _) => DeferOrSettle(ready, intent)
  }

  function ApplyAll(h: Host, intents: seq<Intent>, env: seq<Await>): Host
    decreases intents
  {
    if intents == [] then h
    else ApplyAll(ApplyIntent(h, intents[0], Next(env)), intents[1..], Rest(env))
  }

  // ---------------------------------------------------------------------- frames

  function Durations(frames: seq<CaptureFrame>): seq<nat> {
    seq(|frames|, i requires 0 <= i < |frames| => frames[i].durationMs)
  }

  function TrimFrames(frames: seq<CaptureFrame>, capacityMs: int): seq<CaptureFrame> {
    if |frames| > 1 && Sum(Durations(frames)) > capacityMs then TrimFrames(frames[1..], capacityMs) else frames
  }

  predicate Starts(intents: seq<Intent>) { intents != [] && intents[0].SessionStarted? }

  function AfterPush(h: Host, out: (Machine, seq<Intent>)): Host {
    h.(machine := out.0, nextSession := if Starts(out.1) then h.nextSession + 1 else h.nextSession)
  }

  function VadOf(frame: CaptureFrame, probability: real): VadFrame {
    VadFrame(frame.monotonicMs, frame.wallMs, frame.durationMs, probability)
  }

  predicate OpensPart(intents: seq<Intent>) {
    exists k :: 0 <= k < |intents| && intents[k].OpenPart?
  }

  function WriteOpen(h: Host, pcm: Pcm): Host
    requires h.openPart.Some?
  {
    h.(openPart := Some(h.openPart.value.(frames := h.openPart.value.frames + [pcm])))
  }

  /** A frame that is neither stale nor behind a gap. */
  function Consume(config: Config, h: Host, frame: CaptureFrame, probability: real, env: seq<Await>): Host {
    var out := Push(config, h.machine, VadOf(frame, probability), h.nextSession);
    var pushed := AfterPush(h, out);
    var buffering := h.openPart.None? && h.discarding.None?;
    var held := if buffering then pushed.(preRoll := TrimFrames(h.preRoll + [frame], config.preRollMs)) else pushed;
    var applied := ApplyAll(held, out.1, env);
    if applied.openPart.Some? && !(buffering && OpensPart(out.1)) then WriteOpen(applied, frame.pcm) else applied
  }

  /** `#closeOpenSession`: as if the silence timeout had fired now. */
  function CloseSession(config: Config, h: Host, env: seq<Await>): Host {
    var out := ForceFinalize(config, h.machine);
    if !h.machine.mode.InSession() then AfterPush(h, out).(preRoll := [])
    else
      var applied := ApplyAll(AfterPush(h, out), out.1, env);
      var closed := if applied.openPart.Some? then CloseOpenPart(applied, false) else applied;
      closed.(preRoll := [])
  }

  predicate Stale(frame: CaptureFrame, currentEpoch: Option<int>) {
    frame.streamEpoch.Some? && currentEpoch.Some? && frame.streamEpoch != currentEpoch
  }

  function HandleFrame(
    config: Config, h: Host, frame: CaptureFrame, probability: real, currentEpoch: Option<int>,
    gapEnv: seq<Await>, env: seq<Await>): Host
  {
    if Stale(frame, currentEpoch) then h
    else
      var ready := if frame.discontinuityBeforeMs > 0 then CloseSession(config, h, gapEnv) else h;
      Consume(config, ready, frame, probability, env)
  }

  // ------------------------------------------------------------------------ runs

  datatype Event =
    | Frame(frame: CaptureFrame, probability: real, currentEpoch: Option<int>, gapEnv: seq<Await>, env: seq<Await>)
    | CloseNow(env: seq<Await>)
    | Finished(task: TaskId)
    | Settle(session: SessionId)

  function Step(config: Config, h: Host, event: Event): Host {
    match event
    case Frame(frame, p, epoch, gapEnv, env) => HandleFrame(config, h, frame, p, epoch, gapEnv, env)
    case CloseNow(env) => CloseSession(config, h, env)
    case Finished(task) => Finish(h, task)
    case Settle(session) => SettleDeferred(h, session)
  }

  function RunAll(config: Config, events: seq<Event>): Host {
    if events == [] then START
    else Step(config, RunAll(config, events[..|events| - 1]), events[|events| - 1])
  }
}
