/** Whole runs of the session machine: the intents always read as complete
    recordings, the parts of a recording tile it, and when the recording's own
    timing is accepted by the finalization journal. */
module SessionRuns {

  import opened Common
  import opened SessionMachine

  datatype Input = Frame(frame: VadFrame) | Stop

  /** `nextId` stands for the generator of fresh session ids. */
  datatype Run = Run(machine: Machine, nextId: nat, trace: seq<Intent>)

  function Step(config: Config, run: Run, input: Input): Run {
    var (m, out) :=
      match input
      case Frame(frame) => Push(config, run.machine, frame, run.nextId)
      case Stop => ForceFinalize(config, run.machine);
    var begins := out != [] && out[0].SessionStarted?;
    Run(m, if begins then run.nextId + 1 else run.nextId, run.trace + out)
  }

  function RunAll(config: Config, inputs: seq<Input>): Run {
    if inputs == [] then Run(INITIAL, 0, [])
    else Step(config, RunAll(config, inputs[..|inputs| - 1]), inputs[|inputs| - 1])
  }

  // ---------------------------------------------------- reading a trace of intents

  /** A finished recording as its intents report it. */
  datatype Recording = Recording(session: SessionId, spans: seq<int>, timing: FinalTiming)

  datatype Cursor =
    | Between
    | Announced(session: SessionId, startedWallMs: int)
    | InPart(session: SessionId, startedMs: int, spans: seq<int>, partStartedMs: int)
    | Rotating(session: SessionId, startedMs: int, spans: seq<int>, boundaryMs: int)
    | Ending(session: SessionId, spans: seq<int>, timing: FinalTiming)

  datatype Reading = Reading(done: seq<Recording>, cursor: Cursor)

  /** One intent of the form: started, open 0, (close, open i+1 at the same
      instant)*, close with final timing, one outcome repeating that timing. Any
      other intent is ungrammatical. */
  function Read(r: Reading, intent: Intent): Option<Reading> {
    match (r.cursor, intent)
    case (Between, SessionStarted(id, wall)) => Some(r.(cursor := Announced(id, wall)))
    case (Announced(id, wall), OpenPart(id', 0, _, preRollMs, wall', mono)) =>
      if id == id' && wall == wall' then Some(r.(cursor := InPart(id, mono, [], mono))) else None
    case (InPart(id, start, spans, partStart), ClosePart(id', index, _, end, None)) =>
      if id == id' && index == |spans|
      then Some(r.(cursor := Rotating(id, start, spans + [end - partStart], end))) else None
    case (Rotating(id, start, spans, boundary), OpenPart(id', index, 0, 0, _, mono)) =>
      if id == id' && index == |spans| && mono == boundary
      then Some(r.(cursor := InPart(id, start, spans, mono))) else None
    case (InPart(id, start, spans, partStart), ClosePart(id', index, wall, end, Some(timing))) =>
      if id == id' && index == |spans| && timing.endedWallMs == wall && timing.durationMs == end - start
      then Some(r.(cursor := Ending(id, spans + [end - partStart], timing))) else None
    case (Ending(id, spans, timing), SessionFinalized(id', _, partCount, timing')) =>
      Outcome(r, id', partCount, timing')
    case (Ending(id, spans, timing), SessionRejected(id', partCount, timing')) =>
      Outcome(r, id', partCount, timing')
    case _ => None
  }

  function Outcome(r: Reading, id: SessionId, partCount: nat, timing: FinalTiming): Option<Reading>
    requires r.cursor.Ending?
  {
    var e := r.cursor;
    if e.session == id && |e.spans| == partCount && e.timing == timing
    then Some(Reading(r.done + [Recording(id, e.spans, timing)], Between)) else None
  }

  function ReadAll(trace: seq<Intent>): Option<Reading> {
    if trace == [] then Some(Reading([], Between))
    else
      match ReadAll(trace[..|trace| - 1])
      case None => None
      case Some(r) => Read(r, trace[|trace| - 1])
  }

  lemma {:induction false} ReadTwo(trace: seq<Intent>, a: Intent, b: Intent)
    requires ReadAll(trace).Some? && Read(ReadAll(trace).value, a).Some?
    ensures ReadAll(trace + [a, b]) == Read(Read(ReadAll(trace).value, a).value, b)
  {
    assert (trace + [a, b])[..|trace| + 1] == trace + [a];
    assert (trace + [a])[..|trace|] == trace;
  }

  // -------------------------------------------------------------------- grammar

  /** The machine's own bookkeeping is what the trace says. */
  ghost predicate Reads(run: Run) {
    && ReadAll(run.trace).Some?
    && var r := ReadAll(run.trace).value;
    && (forall k :: 0 <= k < |r.done| ==> r.done[k].session == k && Tiles(r.done[k]))
    && if run.machine.mode.InSession() then
         var s := run.machine.mode.session;
         && run.nextId == |r.done| + 1
         && r.cursor.InPart?
         && r.cursor == InPart(s.id, s.startedMonotonicMs, r.cursor.spans, s.partStartedMonotonicMs)
         && s.id == |r.done|
         && s.partIndex == |r.cursor.spans|
         && Sum(r.cursor.spans) == s.partStartedMonotonicMs - s.startedMonotonicMs
       else
         run.nextId == |r.done| && r.cursor == Between
  }

  /** Consecutive parts share their boundary, so their spans add up to the session. */
  ghost predicate Tiles(rec: Recording) {
    rec.spans != [] && Sum(rec.spans) == rec.timing.durationMs
  }

  /** Every run, whatever its frames and clocks, emits complete recordings with
      sessions numbered in order, each announced once, opened at part 0, rotated at
      shared instants and ended by exactly one outcome. */
  lemma {:induction false} EveryRunReads(config: Config, inputs: seq<Input>)
    ensures Reads(RunAll(config, inputs))
  {
    if inputs != [] {
      var before := RunAll(config, inputs[..|inputs| - 1]);
      EveryRunReads(config, inputs[..|inputs| - 1]);
      StepReads(config, before, inputs[|inputs| - 1]);
    }
  }

  lemma StepReads(config: Config, run: Run, input: Input)
    requires Reads(run)
    ensures Reads(Step(config, run, input))
  {
    assert run.trace + [] == run.trace;
    match input
    case Stop =>
      if run.machine.mode.InSession() { FinalizeReads(config, run, run.machine); }
    case Frame(frame) =>
      var seen := run.machine.(lastMonotonicMs := frame.monotonicMs, lastWallMs := frame.wallMs);
      var isSpeech := frame.speechProbability >= config.vadThreshold;
      if run.machine.mode.InSession() {
        if isSpeech {
          SpeakReads(config, run, seen, frame.durationMs);
        } else if !run.machine.mode.Active? {
          FinalizeReads(config, run, seen);
        }
      } else if run.machine.mode.Candidate? && isSpeech {
        var held := seen.(ring := Trim(run.machine.ring + [frame.durationMs], config.preRollMs));
        OpenReads(run, held, run.machine.mode.speechMs + frame.durationMs);
      }
  }

  lemma OpenReads(run: Run, m: Machine, speechMs: nat)
    requires Reads(run) && !run.machine.mode.InSession()
    ensures var (m', out) := Open(m, speechMs, run.nextId);
      Reads(Run(m', run.nextId + 1, run.trace + out))
  {
    var (m', out) := Open(m, speechMs, run.nextId);
    ReadTwo(run.trace, out[0], out[1]);
    assert out == [out[0], out[1]];
  }

  lemma SpeakReads(config: Config, run: Run, m: Machine, durationMs: nat)
    requires Reads(run) && run.machine.mode.InSession()
    ensures var (m', out) := Speak(config, m, run.machine.mode.session, durationMs);
      Reads(Run(m', run.nextId, run.trace + out))
  {
    var s := run.machine.mode.session;
    var (m', out) := Speak(config, m, s, durationMs);
    if out == [] {
      assert run.trace + out == run.trace;
    } else {
      var spans := ReadAll(run.trace).value.cursor.spans;
      SumAppend(spans, [m.lastMonotonicMs - s.partStartedMonotonicMs]);
      ReadTwo(run.trace, out[0], out[1]);
      assert out == [out[0], out[1]];
    }
  }

  lemma FinalizeReads(config: Config, run: Run, m: Machine)
    requires Reads(run) && run.machine.mode.InSession()
    ensures var (m', out) := Finalize(config, m, run.machine.mode.session);
      Reads(Run(m', run.nextId, run.trace + out))
  {
    var s := run.machine.mode.session;
    var (m', out) := Finalize(config, m, s);
    var spans := ReadAll(run.trace).value.cursor.spans;
    SumAppend(spans, [m.lastMonotonicMs - s.partStartedMonotonicMs]);
    ReadTwo(run.trace, out[0], out[1]);
    assert out == [out[0], out[1]];
  }
}
