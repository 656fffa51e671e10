/** Timing arithmetic of whole session-machine runs: how long one part can get, and
    exactly when the speech total fits inside the reported duration, which the
    finalization journal demands (src/database/repository.ts). */
module SessionTiming {

  import opened Common
  import opened SessionMachine
  import opened SessionRuns

  /** Capture delivers frames of one duration back to back; a stop may separate two streams. */
  ghost predicate Steady(inputs: seq<Input>, d: nat) {
    && (forall k :: 0 <= k < |inputs| && inputs[k].Frame? ==> inputs[k].frame.durationMs == d)
    && (forall k :: 0 < k < |inputs| && inputs[k - 1].Frame? && inputs[k].Frame? ==>
          inputs[k].frame.monotonicMs == inputs[k - 1].frame.monotonicMs + d)
  }

  /** The machine has seen exactly the last input, if that was a frame. */
  ghost predicate InStep(m: Machine, inputs: seq<Input>) {
    m.mode.InSession() ==>
      && inputs != [] && inputs[|inputs| - 1].Frame?
      && m.lastMonotonicMs == inputs[|inputs| - 1].frame.monotonicMs
  }

  lemma {:induction false} AlwaysInStep(config: Config, inputs: seq<Input>)
    ensures InStep(RunAll(config, inputs).machine, inputs)
  {
    if inputs != [] {
      AlwaysInStep(config, inputs[..|inputs| - 1]);
    }
  }

  /** Next input of a steady run, as the machine experiences it. */
  ghost predicate Follows(m: Machine, input: Input, d: nat) {
    input.Frame? ==>
      && input.frame.durationMs == d
      && (m.mode.InSession() ==> input.frame.monotonicMs == m.lastMonotonicMs + d)
  }

  lemma SteadyFollows(config: Config, inputs: seq<Input>, d: nat)
    requires inputs != [] && Steady(inputs, d)
    ensures Steady(inputs[..|inputs| - 1], d)
    ensures Follows(RunAll(config, inputs[..|inputs| - 1]).machine, inputs[|inputs| - 1], d)
  {
    AlwaysInStep(config, inputs[..|inputs| - 1]);
  }

  // ---------------------------------------------------------------- part length

  /** Longest stretch from a part's start to its latest speech. */
  function SpeechReach(config: Config, d: nat): int {
    Max(config.maxPartMs - 1, Max(config.preRollMs, d))
  }

  /** Longest silence the machine sits through without closing. */
  function SilenceReach(config: Config, d: nat): int {
    Max(config.silenceTimeoutMs - 1, d)
  }

  function SpanLimit(config: Config, d: nat): int {
    SpeechReach(config, d) + SilenceReach(config, d) + d
  }

  ghost predicate Paced(config: Config, m: Machine, d: nat) {
    && 0 <= Sum(m.ring) <= Max(config.preRollMs, d)
    && (m.mode.InSession() ==>
          var s := m.mode.session;
          && 0 <= s.lastSpeechMonotonicMs - s.partStartedMonotonicMs <= SpeechReach(config, d)
          && 0 <= m.lastMonotonicMs - s.lastSpeechMonotonicMs <= SilenceReach(config, d)
          && (m.mode.Active? ==> m.lastMonotonicMs == s.lastSpeechMonotonicMs))
  }

  lemma {:induction false} TrimWithin(ring: seq<nat>, capacityMs: nat, d: nat)
    requires ring != [] && ring[|ring| - 1] == d
    ensures 0 <= Sum(Trim(ring, capacityMs)) <= Max(capacityMs, d)
    decreases |ring|
  {
    if |ring| > 1 && Sum(ring) > capacityMs {
      TrimWithin(ring[1..], capacityMs, d);
    } else if |ring| == 1 {
      assert Sum(ring) == Sum(ring[..0]) + ring[0];
    } else {
      SumNonNegative(ring);
    }
  }

  lemma {:induction false} SumNonNegative(s: seq<nat>)
    ensures Sum(s) >= 0
  {
    if s != [] { SumNonNegative(s[..|s| - 1]); }
  }

  /** Only the open part is closed, and it is not too long. */
  ghost predicate ClosesWithin(config: Config, m: Machine, out: seq<Intent>, d: nat) {
    forall k :: 0 <= k < |out| && out[k].ClosePart? ==>
      && m.mode.InSession()
      && 0 <= out[k].endedMonotonicMs - m.mode.session.partStartedMonotonicMs <= SpanLimit(config, d)
  }

  lemma ListenPaced(config: Config, m: Machine, frame: VadFrame, newId: SessionId)
    requires Paced(config, m, frame.durationMs) && !m.mode.InSession()
    ensures
      var (next, out) := Push(config, m, frame, newId);
      Paced(config, next, frame.durationMs) && ClosesWithin(config, m, out, frame.durationMs)
  {
    TrimWithin(m.ring + [frame.durationMs], config.preRollMs, frame.durationMs);
  }

  lemma RecordPaced(config: Config, m: Machine, frame: VadFrame, newId: SessionId)
    requires Paced(config, m, frame.durationMs) && m.mode.InSession()
    requires frame.monotonicMs == m.lastMonotonicMs + frame.durationMs
    ensures
      var (next, out) := Push(config, m, frame, newId);
      Paced(config, next, frame.durationMs) && ClosesWithin(config, m, out, frame.durationMs)
  {
  }

  lemma StopPaced(config: Config, m: Machine, d: nat)
    requires Paced(config, m, d)
    ensures var (next, out) := ForceFinalize(config, m); Paced(config, next, d) && ClosesWithin(config, m, out, d)
  {
  }

  lemma StepPaced(config: Config, run: Run, input: Input, d: nat)
    requires Paced(config, run.machine, d) && Follows(run.machine, input, d)
    ensures Paced(config, Step(config, run, input).machine, d)
    ensures ClosesWithin(config, run.machine, Step(config, run, input).trace[|run.trace|..], d)
  {
    match input
    case Stop =>
      StopPaced(config, run.machine, d);
      Emitted(run.trace, ForceFinalize(config, run.machine).1);
    case Frame(frame) =>
      if run.machine.mode.InSession() {
        RecordPaced(config, run.machine, frame, run.nextId);
      } else {
        ListenPaced(config, run.machine, frame, run.nextId);
      }
      Emitted(run.trace, Push(config, run.machine, frame, run.nextId).1);
  }

  lemma Emitted(trace: seq<Intent>, out: seq<Intent>)
    ensures (trace + out)[|trace|..] == out
  {
  }

  ghost predicate SpansWithin(r: Reading, limit: int) {
    && (forall k, j :: 0 <= k < |r.done| && 0 <= j < |r.done[k].spans| ==> 0 <= r.done[k].spans[j] <= limit)
    && (r.cursor.InPart? ==> forall j :: 0 <= j < |r.cursor.spans| ==> 0 <= r.cursor.spans[j] <= limit)
  }

  lemma StepSpansWithin(config: Config, run: Run, input: Input, d: nat)
    requires Reads(run) && Paced(config, run.machine, d) && Follows(run.machine, input, d)
    requires SpansWithin(ReadAll(run.trace).value, SpanLimit(config, d))
    ensures Reads(Step(config, run, input))
    ensures SpansWithin(ReadAll(Step(config, run, input).trace).value, SpanLimit(config, d))
  {
    StepReads(config, run, input);
    StepPaced(config, run, input, d);
    var next := Step(config, run, input);
    var out := next.trace[|run.trace|..];
    assert next.trace == run.trace + out;
    if out == [] {
      assert next.trace == run.trace;
    } else {
      StepEmits(config, run, input);
      assert out == [out[0], out[1]];
      ReadFirst(run.trace, out[0], out[1]);
      ReadTwo(run.trace, out[0], out[1]);
      SpansGrow(ReadAll(run.trace).value, out[0], out[1], SpanLimit(config, d), run.machine);
    }
  }

  /** A step emits nothing or two intents; only a part in progress can be closed. */
  lemma StepEmits(config: Config, run: Run, input: Input)
    ensures var out := Step(config, run, input).trace[|run.trace|..];
      (out == [] || |out| == 2) && (|out| == 2 ==> !out[1].ClosePart?)
  {
  }

  lemma SpansGrow(r: Reading, a: Intent, b: Intent, limit: int, m: Machine)
    requires SpansWithin(r, limit) && Read(r, a).Some? && Read(Read(r, a).value, b).Some?
    requires r.cursor.InPart? || r.cursor == Between
    requires m.mode.InSession() && r.cursor.InPart? ==> r.cursor.partStartedMs == m.mode.session.partStartedMonotonicMs
    requires a.ClosePart? ==>
      m.mode.InSession() && 0 <= a.endedMonotonicMs - m.mode.session.partStartedMonotonicMs <= limit
    requires !b.ClosePart?
    ensures SpansWithin(Read(Read(r, a).value, b).value, limit)
  {
  }

  lemma ReadFirst(trace: seq<Intent>, a: Intent, b: Intent)
    requires ReadAll(trace + [a, b]).Some?
    ensures ReadAll(trace).Some? && Read(ReadAll(trace).value, a).Some?
  {
    assert (trace + [a, b])[..|trace| + 1] == trace + [a];
    assert (trace + [a])[..|trace|] == trace;
  }

  /** No part of any steady run is longer than the limit, whatever the configuration. */
  lemma {:induction false} PartLengthBounded(config: Config, inputs: seq<Input>, d: nat)
    requires Steady(inputs, d)
    ensures Paced(config, RunAll(config, inputs).machine, d)
    ensures Reads(RunAll(config, inputs))
    ensures SpansWithin(ReadAll(RunAll(config, inputs).trace).value, SpanLimit(config, d))
  {
    if inputs != [] {
      SteadyFollows(config, inputs, d);
      PartLengthBounded(config, inputs[..|inputs| - 1], d);
      StepPaced(config, RunAll(config, inputs[..|inputs| - 1]), inputs[|inputs| - 1], d);
      StepSpansWithin(config, RunAll(config, inputs[..|inputs| - 1]), inputs[|inputs| - 1], d);
    }
  }

  /** With the pre-roll shorter than a part and the silence timeout at least one
      frame, every part is shorter than maximum part + silence timeout + one frame. */
  lemma PartShorterThanLimits(config: Config, inputs: seq<Input>, d: nat, rec: Recording, span: int)
    requires Steady(inputs, d)
    requires config.preRollMs < config.maxPartMs && 0 < d < config.maxPartMs && d <= config.silenceTimeoutMs
    requires Reads(RunAll(config, inputs))
    requires rec in ReadAll(RunAll(config, inputs).trace).value.done && span in rec.spans
    ensures 0 <= span < config.maxPartMs + config.silenceTimeoutMs + d
  {
    PartLengthBounded(config, inputs, d);
  }

  // ----------------------------------------------- when the journal accepts timing

  /** `AudioFinalizationJournalRepository.record` on the timing of a final part. */
  predicate JournalAccepts(intent: Intent) {
    intent.ClosePart? && intent.finalSession.Some? ==>
      0 <= intent.finalSession.value.speechMs <= intent.finalSession.value.durationMs
  }

  /** Frames of duration `d` the pre-roll keeps: always at least one. */
  function FramesHeld(preRollMs: nat, d: nat): nat
    requires d > 0
  {
    Max(1, preRollMs / d)
  }

  /** Speech frames that open a session: the first one only makes a candidate. */
  function FramesNeeded(candidateMs: nat, d: nat): nat
    requires d > 0
  {
    Max(2, (candidateMs + d - 1) / d)
  }

  predicate PreRollCoversCandidate(config: Config, d: nat)
    requires d > 0
  {
    FramesNeeded(config.speechCandidateMs, d) <= FramesHeld(config.preRollMs, d)
  }

  function Repeat(n: nat, d: nat): seq<nat> { seq(n, _ => d) }

  lemma {:induction false} SumRepeat(n: nat, d: nat)
    ensures Sum(Repeat(n, d)) == n * d
  {
    if n > 0 {
      assert Repeat(n, d)[..n - 1] == Repeat(n - 1, d);
      SumRepeat(n - 1, d);
    }
  }

  lemma MultiplesOrdered(a: nat, b: nat, d: nat)
    ensures a <= b ==> a * d <= b * d
  {
    if a <= b {
      assert b * d == a * d + (b - a) * d;
    }
  }

  lemma MultipleVersusQuotient(n: nat, cap: nat, d: nat)
    requires d > 0
    ensures n * d > cap <==> n > cap / d
  {
    var q := cap / d;
    assert q * d <= cap < q * d + d;
    assert (q + 1) * d == q * d + d;
    MultiplesOrdered(q + 1, n, d);
    MultiplesOrdered(n, q, d);
  }

  lemma {:induction false} TrimRepeat(n: nat, cap: nat, d: nat)
    requires d > 0
    ensures Trim(Repeat(n, d), cap) == Repeat(Min(n, FramesHeld(cap, d)), d)
  {
    SumRepeat(n, d);
    MultipleVersusQuotient(n, cap, d);
    if n > 1 && n * d > cap {
      assert Repeat(n, d)[1..] == Repeat(n - 1, d);
      TrimRepeat(n - 1, cap, d);
    }
  }

  lemma NeededIsLeast(n: nat, candidateMs: nat, d: nat)
    requires d > 0
    ensures n >= 2 && n * d >= candidateMs <==> n >= FramesNeeded(candidateMs, d)
  {
    var up := (candidateMs + d - 1) / d;
    MultipleVersusQuotient(n + 1, candidateMs + d - 1, d);
    assert (n + 1) * d == n * d + d;
  }

  /** `held` pre-roll frames, `spoken` of them the current candidate's. */
  ghost predicate Balanced(config: Config, m: Machine, d: nat, held: nat, spoken: nat)
    requires d > 0
  {
    && (!m.mode.InSession() ==>
          m.ring == Repeat(held, d) && held <= FramesHeld(config.preRollMs, d))
    && (m.mode.Candidate? ==>
          && m.mode.speechMs == spoken * d
          && 1 <= spoken < FramesNeeded(config.speechCandidateMs, d)
          && spoken <= held)
    && (m.mode.InSession() ==> m.mode.session.speechMs <= m.lastMonotonicMs - m.mode.session.startedMonotonicMs)
  }

  lemma BufferedRing(held: nat, cap: nat, d: nat)
    requires d > 0 && held <= FramesHeld(cap, d)
    ensures Trim(Repeat(held, d) + [d], cap) == Repeat(Min(held + 1, FramesHeld(cap, d)), d)
  {
    assert Repeat(held, d) + [d] == Repeat(held + 1, d);
    TrimRepeat(held + 1, cap, d);
  }

  lemma ListenBalanced(
    config: Config, m: Machine, isSpeech: bool, newId: SessionId, d: nat, held: nat, spoken: nat)
    requires d > 0 && PreRollCoversCandidate(config, d) && !m.mode.InSession()
    requires m.ring == Repeat(Min(held + 1, FramesHeld(config.preRollMs, d)), d)
    requires held <= FramesHeld(config.preRollMs, d)
    requires m.mode.Candidate? ==>
      && m.mode.speechMs == spoken * d
      && 1 <= spoken < FramesNeeded(config.speechCandidateMs, d)
      && spoken <= held
    ensures Balanced(config, Listen(config, m, isSpeech, d, newId).0, d,
                     Min(held + 1, FramesHeld(config.preRollMs, d)), if m.mode.Candidate? then spoken + 1 else 1)
  {
    if m.mode.Candidate? {
      var held', spoken' := |m.ring|, spoken + 1;
      assert spoken' * d == spoken * d + d;
      NeededIsLeast(spoken', config.speechCandidateMs, d);
      SumRepeat(held', d);
      assert spoken' * d <= held' * d;
    }
  }

  lemma StepBalanced(config: Config, run: Run, input: Input, d: nat, held: nat, spoken: nat)
    returns (held': nat, spoken': nat)
    requires d > 0 && PreRollCoversCandidate(config, d)
    requires Balanced(config, run.machine, d, held, spoken) && Follows(run.machine, input, d)
    ensures Balanced(config, Step(config, run, input).machine, d, held', spoken')
    ensures
      var out := Step(config, run, input).trace[|run.trace|..];
      forall k :: 0 <= k < |out| ==> JournalAccepts(out[k])
  {
    held', spoken' := 0, 0;
    if input.Frame? && !run.machine.mode.InSession() {
      BufferedRing(held, config.preRollMs, d);
      held' := Min(held + 1, FramesHeld(config.preRollMs, d));
      spoken' := if run.machine.mode.Candidate? then spoken + 1 else 1;
      var f := input.frame;
      var m := run.machine.(
        lastMonotonicMs := f.monotonicMs, lastWallMs := f.wallMs, ring := Repeat(held', d));
      ListenBalanced(config, m, f.speechProbability >= config.vadThreshold, run.nextId, d, held, spoken);
    }
  }

  lemma {:induction false} CoveredRunsAccepted(config: Config, inputs: seq<Input>, d: nat)
    returns (held: nat, spoken: nat)
    requires d > 0 && PreRollCoversCandidate(config, d) && Steady(inputs, d)
    ensures Balanced(config, RunAll(config, inputs).machine, d, held, spoken)
    ensures forall k :: 0 <= k < |RunAll(config, inputs).trace| ==> JournalAccepts(RunAll(config, inputs).trace[k])
  {
    held, spoken := 0, 0;
    if inputs != [] {
      SteadyFollows(config, inputs, d);
      var before := RunAll(config, inputs[..|inputs| - 1]);
      held, spoken := CoveredRunsAccepted(config, inputs[..|inputs| - 1], d);
      held, spoken := StepBalanced(config, before, inputs[|inputs| - 1], d, held, spoken);
      var out := Step(config, before, inputs[|inputs| - 1]).trace[|before.trace|..];
      assert RunAll(config, inputs).trace == before.trace + out;
    }
  }

  function SpeechFrame(config: Config, k: int, d: nat): Input {
    Frame(VadFrame(k * d, k * d, d, config.vadThreshold))
  }

  /** `n` speech frames from a silent start. */
  function SpeechFrames(config: Config, n: nat, d: nat): seq<Input> {
    seq(n, k => SpeechFrame(config, k, d))
  }

  ghost predicate Building(config: Config, run: Run, n: nat, d: nat)
    requires d > 0
  {
    && run.machine.mode == (if n == 0 then Idle else Candidate(n * d))
    && run.machine.ring == Repeat(Min(n, FramesHeld(config.preRollMs, d)), d)
    && run.trace == [] && run.nextId == 0
  }

  lemma BuildOne(config: Config, run: Run, n: nat, d: nat)
    requires d > 0 && n + 1 < FramesNeeded(config.speechCandidateMs, d)
    requires Building(config, run, n, d)
    ensures Building(config, Step(config, run, SpeechFrame(config, n, d)), n + 1, d)
  {
    BufferedRing(Min(n, FramesHeld(config.preRollMs, d)), config.preRollMs, d);
    assert (n + 1) * d == n * d + d;
    NeededIsLeast(n + 1, config.speechCandidateMs, d);
  }

  lemma {:induction false} SpeechBuildsUp(config: Config, n: nat, d: nat)
    requires d > 0 && n < FramesNeeded(config.speechCandidateMs, d)
    ensures Building(config, RunAll(config, SpeechFrames(config, n, d)), n, d)
  {
    if n == 0 {
      assert RunAll(config, []) == Run(INITIAL, 0, []);
    } else {
      assert SpeechFrames(config, n, d)[..n - 1] == SpeechFrames(config, n - 1, d);
      SpeechBuildsUp(config, n - 1, d);
      BuildOne(config, RunAll(config, SpeechFrames(config, n - 1, d)), n - 1, d);
    }
  }

  /** The frame that completes the candidate window counts more speech than the
      pre-roll can back. */
  lemma OpenTooEarly(config: Config, run: Run, n: nat, d: nat)
    requires d > 0 && n + 1 == FramesNeeded(config.speechCandidateMs, d)
    requires Building(config, run, n, d) && !PreRollCoversCandidate(config, d)
    ensures var opening := Step(config, run, SpeechFrame(config, n, d));
      && |opening.trace| == 2 && opening.machine.mode.Active?
      && opening.machine.mode.session.speechMs >
           opening.machine.lastMonotonicMs - opening.machine.mode.session.startedMonotonicMs
  {
    var held := FramesHeld(config.preRollMs, d);
    BufferedRing(Min(n, held), config.preRollMs, d);
    assert (n + 1) * d == n * d + d;
    NeededIsLeast(n + 1, config.speechCandidateMs, d);
    SumRepeat(held, d);
    MultiplesOrdered(held, n, d);
  }

  /** Stopped at once, the session's final timing says so. */
  lemma StopReports(config: Config, run: Run)
    requires |run.trace| == 2 && run.machine.mode.InSession()
    requires var m := run.machine; m.mode.session.speechMs > m.lastMonotonicMs - m.mode.session.startedMonotonicMs
    ensures var end := Step(config, run, Stop);
      |end.trace| == 4 && !JournalAccepts(end.trace[2])
  {
  }

  lemma LastTwo(config: Config, front: seq<Input>, a: Input, b: Input)
    ensures RunAll(config, front + [a, b]) == Step(config, Step(config, RunAll(config, front), a), b)
  {
    assert (front + [a, b])[..|front| + 1] == front + [a];
    assert (front + [a])[..|front|] == front;
  }

  /** When the pre-roll is shorter than the candidate window, speaking until the
      session opens and stopping at once reports more speech than duration. */
  lemma UncoveredRunRejected(config: Config, d: nat) returns (inputs: seq<Input>, k: nat)
    requires d > 0 && !PreRollCoversCandidate(config, d)
    ensures Steady(inputs, d)
    ensures k < |RunAll(config, inputs).trace| && !JournalAccepts(RunAll(config, inputs).trace[k])
  {
    var n := FramesNeeded(config.speechCandidateMs, d) - 1;
    var building := SpeechFrames(config, n, d);
    inputs, k := building + [SpeechFrame(config, n, d), Stop], 2;
    assert inputs == SpeechFrames(config, n + 1, d) + [Stop];
    SpeechIsSteady(config, n + 1, d);
    SpeechBuildsUp(config, n, d);
    LastTwo(config, building, SpeechFrame(config, n, d), Stop);
    OpenTooEarly(config, RunAll(config, building), n, d);
    StopReports(config, Step(config, RunAll(config, building), SpeechFrame(config, n, d)));
  }

  lemma SpeechIsSteady(config: Config, n: nat, d: nat)
    ensures Steady(SpeechFrames(config, n, d) + [Stop], d)
  {
    var speech := SpeechFrames(config, n, d);
    forall j | 0 < j < n ensures speech[j].frame.monotonicMs == speech[j - 1].frame.monotonicMs + d {
      assert j * d == (j - 1) * d + d;
    }
  }

  /** The journal accepts the timing of every recording of every steady run if and
      only if the pre-roll holds at least the frames that open a session. */
  lemma JournalAcceptsIffPreRollCoversCandidate(config: Config, d: nat)
    requires d > 0
    ensures PreRollCoversCandidate(config, d) <==>
      forall inputs: seq<Input>, k: nat ::
        Steady(inputs, d) && k < |RunAll(config, inputs).trace| ==> JournalAccepts(RunAll(config, inputs).trace[k])
  {
    if PreRollCoversCandidate(config, d) {
      forall inputs: seq<Input>, k: nat | Steady(inputs, d) && k < |RunAll(config, inputs).trace|
        ensures JournalAccepts(RunAll(config, inputs).trace[k])
      {
        var held, spoken := CoveredRunsAccepted(config, inputs, d);
      }
    } else {
      var inputs, k := UncoveredRunRejected(config, d);
    }
  }
}
