/** Audio conservation: which input frames a session owns is decided by the pure
    machine alone (`Ledger`), and the recorder writes exactly those frames, once
    each and in order, into consecutively numbered parts. */
module RecorderConservation {

  import opened Common
  import opened SessionMachine
  import opened RecorderModel
  import opened RecorderSafety

  // ------------------------------------------------- what a session is entitled to

  /** Frames `from..to` of everything that was fed to the recorder. */
  datatype Span = Span(from: int, to: int)

  /** `spans[id]` is the audio of session `id`: the pre-roll the machine asked for
      when it opened, and every later frame up to the one before it closed. */
  datatype Ledger = Ledger(machine: Machine, fed: seq<Pcm>, spans: seq<Span>)

  const EMPTY := Ledger(INITIAL, [], [])

  function PreRollFrames(intents: seq<Intent>): nat {
    if |intents| == 2 && intents[1].OpenPart? then intents[1].preRollFrames else 0
  }

  /** The ledger after a push that gave `m` and `out`. */
  function Entered(l: Ledger, m: Machine, out: seq<Intent>, pcm: Pcm): Ledger {
    var fed := l.fed + [pcm];
    var spans :=
      if Starts(out) then l.spans + [Span(|fed| - PreRollFrames(out), |fed|)]
      else if m.mode.InSession() && l.spans != [] then
        l.spans[|l.spans| - 1 := l.spans[|l.spans| - 1].(to := |fed|)]
      else l.spans;
    Ledger(m, fed, spans)
  }

  function AccountFrame(config: Config, l: Ledger, frame: CaptureFrame, probability: real): Ledger {
    var out := Push(config, l.machine, VadOf(frame, probability), |l.spans|);
    Entered(l, out.0, out.1, frame.pcm)
  }

  function Account(config: Config, l: Ledger, event: Event): Ledger {
    match event
    case Frame(frame, p, epoch, _, _) =>
      if Stale(frame, epoch) then l
      else
        var ready := if frame.discontinuityBeforeMs > 0
                     then l.(machine := ForceFinalize(config, l.machine).0) else l;
        AccountFrame(config, ready, frame, p)
    case CloseNow(_) => l.(machine := ForceFinalize(config, l.machine).0)
    case Finished(_) => l
    case Settle(_) => l
  }

  function AccountAll(config: Config, events: seq<Event>): Ledger {
    if events == [] then EMPTY
    else Account(config, AccountAll(config, events[..|events| - 1]), events[|events| - 1])
  }

  /** Sessions own disjoint stretches of the input, in order. */
  ghost predicate Ordered(l: Ledger) {
    && (forall k :: 0 <= k < |l.spans| ==> 0 <= l.spans[k].from <= l.spans[k].to <= |l.fed|)
    && (forall j, k :: 0 <= j < k < |l.spans| ==> l.spans[j].to <= l.spans[k].from)
    && if l.machine.mode.InSession() then
         && l.spans != [] && l.machine.mode.session.id == |l.spans| - 1
         && l.spans[|l.spans| - 1].to == |l.fed|
         && l.machine.ring == []
       else |l.machine.ring| <= |l.fed| - LastEnd(l)
  }

  function LastEnd(l: Ledger): int {
    if l.spans == [] then 0 else l.spans[|l.spans| - 1].to
  }

  lemma {:induction false} TrimShortens(ring: seq<nat>, capacityMs: int)
    ensures |Trim(ring, capacityMs)| <= |ring|
    ensures ring != [] ==> Trim(ring, capacityMs) != []
    decreases |ring|
  {
    if |ring| > 1 && Sum(ring) > capacityMs { TrimShortens(ring[1..], capacityMs); }
  }

  /** The only ways a push can go. */
  lemma PushShape(config: Config, m: Machine, frame: VadFrame, newId: SessionId)
    ensures var (m', out) := Push(config, m, frame, newId);
      && (m.mode.InSession() ==>
            && !Starts(out)
            && (m'.mode.InSession() ==> m'.mode.session.id == m.mode.session.id && m'.ring == m.ring)
            && (!m'.mode.InSession() ==> m'.ring == []))
      && (!m.mode.InSession() ==>
            var held := Trim(m.ring + [frame.durationMs], config.preRollMs);
            && (Starts(out) <==> m'.mode.InSession())
            && (Starts(out) ==> m'.mode.session.id == newId && m'.ring == [] && PreRollFrames(out) == |held|)
            && (!Starts(out) ==> out == [] && m'.ring == held))
  {
  }

  lemma EnteredOrdered(l: Ledger, m: Machine, out: seq<Intent>, pcm: Pcm)
    requires Ordered(l)
    requires m.mode.InSession() ==> m.ring == []
    requires Starts(out) ==>
      && !l.machine.mode.InSession() && m.mode.InSession() && m.mode.session.id == |l.spans|
      && PreRollFrames(out) <= |l.machine.ring| + 1
    requires !Starts(out) && m.mode.InSession() ==>
      l.machine.mode.InSession() && m.mode.session.id == l.machine.mode.session.id
    requires !m.mode.InSession() ==>
      if l.machine.mode.InSession() then m.ring == [] else |m.ring| <= |l.machine.ring| + 1
    ensures Ordered(Entered(l, m, out, pcm))
  {
  }

  lemma AccountFrameOrdered(config: Config, l: Ledger, frame: CaptureFrame, probability: real)
    requires Ordered(l)
    ensures Ordered(AccountFrame(config, l, frame, probability))
  {
    var out := Push(config, l.machine, VadOf(frame, probability), |l.spans|);
    PushShape(config, l.machine, VadOf(frame, probability), |l.spans|);
    TrimShortens(l.machine.ring + [frame.durationMs], config.preRollMs);
    EnteredOrdered(l, out.0, out.1, frame.pcm);
  }

  // --------------------------------------------------------- what the parts received

  /** Every part ever opened, closed or not, in the order of opening. */
  function Lane(h: Host): seq<Part> {
    seq(|h.detached|, i requires 0 <= i < |h.detached| => h.detached[i].(fate := Recording))
    + (if h.openPart.Some? then [h.openPart.value.(fate := Recording)] else [])
  }

  /** All frames written for a session, part after part. */
  function Written(lane: seq<Part>, id: SessionId): seq<Pcm> {
    if lane == [] then []
    else
      var last := lane[|lane| - 1];
      Written(lane[..|lane| - 1], id) + (if last.session == id then last.frames else [])
  }

  function PartCount(lane: seq<Part>, id: SessionId): nat {
    if lane == [] then 0
    else PartCount(lane[..|lane| - 1], id) + (if lane[|lane| - 1].session == id then 1 else 0)
  }

  /** Parts of one session are numbered 0, 1, 2, ... without a gap. */
  ghost predicate Numbered(lane: seq<Part>) {
    forall k :: 0 <= k < |lane| ==> lane[k].index == PartCount(lane[..k], lane[k].session)
  }

  /** Storage gave up on the session while it was being recorded. */
  ghost predicate Discarded(h: Host, id: SessionId) {
    || h.discarding == Some(id)
    || (id in h.pending && h.pending[id].storageDiscarded)
    || SettledDiscarded(h.settled, id)
  }

  ghost predicate Conserves(h: Host, l: Ledger) {
    && l.machine == h.machine && |l.spans| == h.nextSession && Ordered(l)
    && |h.preRoll| <= |l.fed| && Pcms(h.preRoll) == LastN(l.fed, |h.preRoll|)
    && (forall k :: 0 <= k < |Lane(h)| ==> Lane(h)[k].session < h.nextSession)
    && Numbered(Lane(h))
    && forall id: nat :: id < |l.spans| ==> Owns(h, l, id)
  }

  /** Frames written so far are a prefix of the session's audio, and all of it
      unless storage gave the session up. */
  ghost predicate Owns(h: Host, l: Ledger, id: nat)
    requires id < |l.spans| && Ordered(l)
  {
    var audio := l.fed[l.spans[id].from..l.spans[id].to];
    && Written(Lane(h), id) <= audio
    && (!Discarded(h, id) ==> Written(Lane(h), id) == audio)
  }

  // ------------------------------------------------------------------ list lemmas

  lemma WrittenAppend(lane: seq<Part>, part: Part, id: SessionId)
    ensures Written(lane + [part], id) == Written(lane, id) + (if part.session == id then part.frames else [])
    ensures PartCount(lane + [part], id) == PartCount(lane, id) + (if part.session == id then 1 else 0)
  {
    assert (lane + [part])[..|lane|] == lane;
  }

  lemma {:induction false} NothingYet(lane: seq<Part>, id: SessionId)
    requires forall k :: 0 <= k < |lane| ==> lane[k].session != id
    ensures Written(lane, id) == [] && PartCount(lane, id) == 0
  {
    if lane != [] { NothingYet(lane[..|lane| - 1], id); }
  }

  lemma NumberedAppend(lane: seq<Part>, part: Part)
    requires Numbered(lane) && part.index == PartCount(lane, part.session)
    ensures Numbered(lane + [part])
  {
    forall k | 0 <= k < |lane| ensures (lane + [part])[..k] == lane[..k] {
    }
    assert (lane + [part])[..|lane|] == lane;
  }

  /** One more frame in the last part. */
  function Extend(lane: seq<Part>, pcm: Pcm): seq<Part>
    requires lane != []
  {
    lane[..|lane| - 1] + [lane[|lane| - 1].(frames := lane[|lane| - 1].frames + [pcm])]
  }

  lemma ExtendLane(lane: seq<Part>, pcm: Pcm, id: SessionId)
    requires lane != [] && Numbered(lane)
    ensures Numbered(Extend(lane, pcm))
    ensures Written(Extend(lane, pcm), id)
      == Written(lane, id) + (if lane[|lane| - 1].session == id then [pcm] else [])
    ensures PartCount(Extend(lane, pcm), id) == PartCount(lane, id)
  {
    var front, last := lane[..|lane| - 1], lane[|lane| - 1];
    assert lane == front + [last];
    WrittenAppend(front, last, id);
    WrittenAppend(front, last.(frames := last.frames + [pcm]), id);
    forall k | 0 <= k < |front| ensures front[..k] == lane[..k] {
    }
    NumberedAppend(front, last.(frames := last.frames + [pcm]));
  }

  // ------------------------------------------------------- what intents do to parts

  /** Finalizers finishing touch nothing else. */
  lemma {:induction false} FinishAllFrame(h: Host, tasks: seq<TaskId>)
    ensures FinishAll(h, tasks)
      == h.(finalizers := FinishAll(h, tasks).finalizers, reserved := FinishAll(h, tasks).reserved)
    decreases tasks
  {
    if tasks != [] { FinishAllFrame(Finish(h, tasks[0]), tasks[1..]); }
  }

  lemma CloseLane(h: Host, intent: Intent, await: Await)
    requires intent.ClosePart?
    ensures var r := ApplyIntent(h, intent, await);
      && Lane(r) == Lane(h) && r.openPart.None?
      && r.discarding == h.discarding && r.pending == h.pending && r.settled == h.settled
      && r.preRoll == h.preRoll && r.machine == h.machine && r.nextSession == h.nextSession
  {
    FinishAllFrame(h, await.finished);
  }

  lemma OpenLane(h: Host, intent: Intent, await: Await)
    requires intent.OpenPart? && h.openPart.None? && (h.discarding.None? || h.discarding == Some(intent.session))
    ensures var r := ApplyIntent(h, intent, await);
      && r.pending == h.pending && r.settled == h.settled
      && r.machine == h.machine && r.nextSession == h.nextSession
      && (r.openPart.None? ==> Lane(r) == Lane(h) && r.discarding == Some(intent.session))
      && (r.openPart.Some? ==>
            && r.discarding.None? && h.discarding.None?
            && r.openPart.value == Part(
                 intent.session, intent.index, intent.startedMonotonicMs,
                 if intent.preRollFrames > 0 then Pcms(LastN(h.preRoll, intent.preRollFrames)) else [], Recording)
            && Lane(r) == Lane(h) + [r.openPart.value])
      && (h.discarding == Some(intent.session) ==> r.openPart.None?)
      && (r.preRoll == [] || r.preRoll == h.preRoll)
  {
    FinishAllFrame(h, await.finished);
  }

  lemma OutcomeLane(h: Host, intent: Intent, await: Await, id: SessionId)
    requires intent.SessionFinalized? || intent.SessionRejected?
    requires h.discarding.None? || h.discarding == Some(intent.session)
    requires intent.session !in h.pending
    ensures var r := ApplyIntent(h, intent, await);
      && Lane(r) == Lane(h) && r.preRoll == h.preRoll && r.machine == h.machine && r.nextSession == h.nextSession
      && (Discarded(h, id) <==> Discarded(r, id))
  {
    FinishAllFrame(h, await.finished);
    var ready := FinishAll(h, await.finished);
    var r := ApplyIntent(h, intent, await);
    var settlement := Settlement(intent, h.discarding == Some(intent.session));
    if intent.session !in ready.finalizers.Values {
      assert r.settled == h.settled + [settlement];
      SettledAppend(h.settled, settlement, id);
    }
  }

  ghost predicate SettledDiscarded(settled: seq<Settlement>, id: SessionId) {
    exists k :: 0 <= k < |settled| && settled[k].outcome.session == id && settled[k].storageDiscarded
  }

  lemma SettledAppend(settled: seq<Settlement>, last: Settlement, id: SessionId)
    ensures SettledDiscarded(settled + [last], id)
      <==> SettledDiscarded(settled, id) || (last.outcome.session == id && last.storageDiscarded)
  {
    var longer := settled + [last];
    if SettledDiscarded(settled, id) {
      var k :| 0 <= k < |settled| && settled[k].outcome.session == id && settled[k].storageDiscarded;
      assert longer[k] == settled[k];
    }
    assert longer[|settled|] == last;
  }

  // --------------------------------------------------------------------- one frame

  /** What one frame of session `id` does to the parts: nothing when the session is
      discarded, else one more frame in the last part, which a rotation may just
      have added. */
  ghost predicate LaneStep(lane: seq<Part>, added: seq<Part>, lane': seq<Part>, id: SessionId, pcm: Pcm, writes: bool) {
    if !writes then lane' == lane
    else
      && (added == [] || (|added| == 1 && added[0].frames == [] && added[0].index == PartCount(lane, id)))
      && (lane + added != [] && (lane + added)[|lane + added| - 1].session == id)
      && lane' == Extend(lane + added, pcm)
  }

  lemma LaneStepFacts(
    lane: seq<Part>, added: seq<Part>, lane': seq<Part>, id: SessionId, pcm: Pcm, writes: bool, other: SessionId)
    requires LaneStep(lane, added, lane', id, pcm, writes) && Numbered(lane)
    ensures Numbered(lane')
    ensures Written(lane', other) == Written(lane, other) + (if writes && other == id then [pcm] else [])
    ensures forall k :: 0 <= k < |lane'| ==>
      lane'[k].session == id || (k < |lane| && lane'[k].session == lane[k].session)
  {
    if writes {
      if added == [] {
        assert lane + added == lane;
      } else {
        assert added == [added[0]];
        NumberedAppend(lane, added[0]);
        WrittenAppend(lane, added[0], other);
      }
      ExtendLane(lane + added, pcm, other);
    }
  }

  function Heard(l: Ledger, m: Machine, pcm: Pcm): Ledger
    requires l.spans != []
  {
    Ledger(m, l.fed + [pcm], l.spans[|l.spans| - 1 := l.spans[|l.spans| - 1].(to := |l.fed| + 1)])
  }

  lemma HeardOrdered(l: Ledger, m: Machine, pcm: Pcm)
    requires Ordered(l) && l.machine.mode.InSession()
    requires m.mode.InSession() && m.mode.session.id == l.machine.mode.session.id && m.ring == []
    ensures Ordered(Heard(l, m, pcm))
    ensures forall id: nat :: id < |l.spans| ==>
      var s := Heard(l, m, pcm).spans[id];
      Heard(l, m, pcm).fed[s.from..s.to]
        == l.fed[l.spans[id].from..l.spans[id].to] + (if id == l.machine.mode.session.id then [pcm] else [])
  {
    forall id: nat | id < |l.spans|
      ensures var s := Heard(l, m, pcm).spans[id];
        Heard(l, m, pcm).fed[s.from..s.to]
          == l.fed[l.spans[id].from..l.spans[id].to] + (if id == l.machine.mode.session.id then [pcm] else [])
    {
      if id == |l.spans| - 1 {
        SliceGrows(l.fed, l.spans[id].from, pcm);
      } else {
        SliceStays(l.fed, l.spans[id].from, l.spans[id].to, pcm);
      }
    }
  }

  lemma SliceGrows(fed: seq<Pcm>, from: nat, pcm: Pcm)
    requires from <= |fed|
    ensures (fed + [pcm])[from..|fed| + 1] == fed[from..|fed|] + [pcm]
  {
  }

  lemma SliceStays(fed: seq<Pcm>, from: nat, to: nat, pcm: Pcm)
    requires from <= to <= |fed|
    ensures (fed + [pcm])[from..to] == fed[from..to]
  {
  }

  /** One more frame of the session in progress. */
  lemma ContinueConserves(h: Host, l: Ledger, r: Host, added: seq<Part>, id: SessionId, pcm: Pcm, writes: bool)
    requires Conserves(h, l)
    requires h.machine.mode.InSession() && h.machine.mode.session.id == id
    requires r.machine.mode.InSession() && r.machine.mode.session.id == id && r.machine.ring == []
    requires r.nextSession == h.nextSession && r.pending == h.pending && r.settled == h.settled && r.preRoll == []
    requires LaneStep(Lane(h), added, Lane(r), id, pcm, writes)
    requires !writes ==> r.discarding == Some(id)
    requires writes ==> !Discarded(h, id) && r.discarding.None?
    requires h.discarding.None? || h.discarding == Some(id)
    ensures Conserves(r, Heard(l, r.machine, pcm))
  {
    HeardOrdered(l, r.machine, pcm);
    LaneStepFacts(Lane(h), added, Lane(r), id, pcm, writes, id);
    forall other: nat | other < |Heard(l, r.machine, pcm).spans|
      ensures Owns(r, Heard(l, r.machine, pcm), other)
    {
      assert Owns(h, l, other);
      LaneStepFacts(Lane(h), added, Lane(r), id, pcm, writes, other);
      OwnsGrows(h, l, r, Heard(l, r.machine, pcm), other, pcm, writes && other == id);
    }
  }

  lemma OwnsGrows(h: Host, l: Ledger, r: Host, l': Ledger, id: nat, pcm: Pcm, writes: bool)
    requires id < |l.spans| == |l'.spans| && Ordered(l) && Ordered(l') && Owns(h, l, id)
    requires Written(Lane(r), id) == Written(Lane(h), id) + (if writes then [pcm] else [])
    requires
      var audio, audio' := l.fed[l.spans[id].from..l.spans[id].to], l'.fed[l'.spans[id].from..l'.spans[id].to];
      audio' == audio || audio' == audio + [pcm]
    requires
      var audio, audio' := l.fed[l.spans[id].from..l.spans[id].to], l'.fed[l'.spans[id].from..l'.spans[id].to];
      writes ==> audio' == audio + [pcm] && !Discarded(h, id)
    requires
      var audio, audio' := l.fed[l.spans[id].from..l.spans[id].to], l'.fed[l'.spans[id].from..l'.spans[id].to];
      !Discarded(r, id) ==> !Discarded(h, id) && (audio' == audio || writes)
    ensures Owns(r, l', id)
  {
  }

  /** A frame that writes nothing: listening, or closing the session. */
  lemma SilentConserves(h: Host, l: Ledger, r: Host, l': Ledger)
    requires Conserves(h, l)
    requires l'.machine == r.machine && l'.spans == l.spans && l.fed <= l'.fed && Ordered(l')
    requires Lane(r) == Lane(h) && r.nextSession == h.nextSession
    requires forall id: nat :: id < h.nextSession ==> (Discarded(h, id) <==> Discarded(r, id))
    requires |r.preRoll| <= |l'.fed| && Pcms(r.preRoll) == LastN(l'.fed, |r.preRoll|)
    ensures Conserves(r, l')
  {
    forall id: nat | id < |l'.spans| ensures Owns(r, l', id) {
      assert Owns(h, l, id);
      assert l'.fed[l.spans[id].from..l.spans[id].to] == l.fed[l.spans[id].from..l.spans[id].to];
    }
  }

  /** What opening a session leaves behind: part 0 with the replayed pre-roll, or a
      session discarded from the start. */
  ghost predicate Opens(h: Host, r: Host, replayed: seq<Pcm>) {
    && r.nextSession == h.nextSession + 1 && r.pending == h.pending && r.settled == h.settled && h.discarding.None?
    && r.preRoll == []
    && (r.openPart.None? ==> Lane(r) == Lane(h) && r.discarding == Some(h.nextSession))
    && (r.openPart.Some? ==>
          && r.discarding.None? && r.openPart.value.session == h.nextSession && r.openPart.value.index == 0
          && r.openPart.value.frames == replayed && Lane(r) == Lane(h) + [r.openPart.value])
  }

  lemma EarlierKept(h: Host, l: Ledger, r: Host, l': Ledger, replayed: seq<Pcm>, id: nat)
    requires Opens(h, r, replayed) && id < |l.spans| <= |l'.spans| && Ordered(l) && Ordered(l') && Owns(h, l, id)
    requires l'.spans[id] == l.spans[id] && l.fed <= l'.fed && id < h.nextSession
    ensures Owns(r, l', id)
  {
    if r.openPart.Some? { WrittenAppend(Lane(h), r.openPart.value, id); }
    assert l'.fed[l.spans[id].from..l.spans[id].to] == l.fed[l.spans[id].from..l.spans[id].to];
  }

  lemma OpenedOwns(h: Host, r: Host, l': Ledger, replayed: seq<Pcm>)
    requires Opens(h, r, replayed) && |l'.spans| == r.nextSession && Ordered(l')
    requires |replayed| <= |l'.fed| && replayed == LastN(l'.fed, |replayed|)
    requires l'.spans[h.nextSession] == Span(|l'.fed| - |replayed|, |l'.fed|)
    requires Written(Lane(h), h.nextSession) == []
    ensures Owns(r, l', h.nextSession)
  {
    if r.openPart.Some? { WrittenAppend(Lane(h), r.openPart.value, h.nextSession); }
    assert l'.fed[|l'.fed| - |replayed|..|l'.fed|] == LastN(l'.fed, |replayed|);
  }

  /** The frame that opens a session: its pre-roll, this frame included, is replayed
      into part 0, or the session is discarded from the start. */
  lemma OpeningConserves(h: Host, l: Ledger, r: Host, fed: seq<Pcm>, replayed: seq<Pcm>)
    requires Conserves(h, l) && !h.machine.mode.InSession() && Opens(h, r, replayed)
    requires l.fed <= fed && |replayed| <= |fed| && replayed == LastN(fed, |replayed|)
    requires Ordered(Ledger(r.machine, fed, l.spans + [Span(|fed| - |replayed|, |fed|)]))
    ensures Conserves(r, Ledger(r.machine, fed, l.spans + [Span(|fed| - |replayed|, |fed|)]))
  {
    var l' := Ledger(r.machine, fed, l.spans + [Span(|fed| - |replayed|, |fed|)]);
    NothingYet(Lane(h), h.nextSession);
    OpeningNumbered(h, r, replayed);
    OpeningOwns(h, l, r, l', replayed);
    assert LastN(fed, 0) == [];
  }

  lemma OpeningOwns(h: Host, l: Ledger, r: Host, l': Ledger, replayed: seq<Pcm>)
    requires Opens(h, r, replayed) && |l.spans| == h.nextSession && Ordered(l) && Ordered(l') && l.fed <= l'.fed
    requires |replayed| <= |l'.fed| && replayed == LastN(l'.fed, |replayed|)
    requires l'.spans == l.spans + [Span(|l'.fed| - |replayed|, |l'.fed|)]
    requires forall id: nat :: id < |l.spans| ==> Owns(h, l, id)
    requires Written(Lane(h), h.nextSession) == []
    ensures forall id: nat :: id < |l'.spans| ==> Owns(r, l', id)
  {
    EarlierAllKept(h, l, r, l', replayed);
    OpenedOwns(h, r, l', replayed);
  }

  lemma EarlierAllKept(h: Host, l: Ledger, r: Host, l': Ledger, replayed: seq<Pcm>)
    requires Opens(h, r, replayed) && |l.spans| == h.nextSession && Ordered(l) && Ordered(l') && l.fed <= l'.fed
    requires |l'.spans| == |l.spans| + 1 && l'.spans[..|l.spans|] == l.spans
    requires forall id: nat :: id < |l.spans| ==> Owns(h, l, id)
    ensures forall id: nat :: id < |l.spans| ==> Owns(r, l', id)
  {
    forall id: nat | id < |l.spans| ensures Owns(r, l', id) {
      assert Owns(h, l, id) && l'.spans[..|l.spans|][id] == l.spans[id];
      EarlierKept(h, l, r, l', replayed, id);
    }
  }

  lemma OpeningNumbered(h: Host, r: Host, replayed: seq<Pcm>)
    requires Opens(h, r, replayed) && Numbered(Lane(h))
    requires forall k :: 0 <= k < |Lane(h)| ==> Lane(h)[k].session < h.nextSession
    ensures Numbered(Lane(r))
    ensures forall k :: 0 <= k < |Lane(r)| ==> Lane(r)[k].session < r.nextSession
  {
    NothingYet(Lane(h), h.nextSession);
    if r.openPart.Some? { NumberedAppend(Lane(h), r.openPart.value); }
  }

  // -------------------------------------------------------------------- whole steps

  lemma LiveKept(h: Host, id: SessionId)
    requires Outcomes(h, Some(id))
    ensures Discarded(h, id) <==> h.discarding == Some(id)
  {
  }

  lemma LaneLast(h: Host)
    ensures h.openPart.Some? ==> Lane(h) != [] && Lane(h)[|Lane(h)| - 1] == h.openPart.value.(fate := Recording)
  {
  }

  /** After the intents of an ongoing frame: as before, or with one part added. */
  ghost predicate Ongoing(h: Host, applied: Host, added: seq<Part>, id: SessionId) {
    && applied.nextSession == h.nextSession && applied.pending == h.pending
    && applied.settled == h.settled && applied.preRoll == []
    && (applied.openPart.None? ==> Lane(applied) == Lane(h) && applied.discarding == Some(id))
    && (applied.openPart.Some? ==>
          && h.discarding.None? && applied.discarding.None?
          && Lane(applied) == Lane(h) + added
          && Lane(applied) != [] && Lane(applied)[|Lane(applied)| - 1].session == id
          && (added == [] || (|added| == 1 && added[0].frames == [] && added[0].index == PartCount(Lane(h), id))))
  }

  lemma RotationLane(h: Host, m: Machine, close: Intent, open: Intent, env: seq<Await>) returns (added: seq<Part>)
    requires Sound(h) && Numbered(Lane(h)) && h.machine.mode.InSession()
    requires var s := h.machine.mode.session;
      && close.ClosePart? && open.OpenPart? && open.session == s.id
      && open.index == s.partIndex + 1 && open.preRollFrames == 0
    ensures var applied := ApplyAll(h.(machine := m), [close, open], env);
      Ongoing(h, applied, added, h.machine.mode.session.id) && applied.machine == m
  {
    var pushed := h.(machine := m);
    var id := h.machine.mode.session.id;
    ApplyTwo(pushed, close, open, env);
    var closed := ApplyIntent(pushed, close, Next(env));
    CloseLane(pushed, close, Next(env));
    OpenLane(closed, open, Next(Rest(env)));
    var applied := ApplyIntent(closed, open, Next(Rest(env)));
    LaneLast(h);
    added := [];
    if applied.openPart.Some? {
      added := [applied.openPart.value];
      var front, last := Lane(h)[..|Lane(h)| - 1], Lane(h)[|Lane(h)| - 1];
      assert Lane(h) == front + [last];
      WrittenAppend(front, last, id);
    }
  }

  lemma OngoingIntents(
    config: Config, h: Host, seen: Machine, isSpeech: bool, durationMs: nat, env: seq<Await>) returns (added: seq<Part>)
    requires Sound(h) && Numbered(Lane(h)) && h.machine.mode.InSession()
    requires seen.mode == h.machine.mode && Record(config, seen, isSpeech, durationMs).0.mode.InSession()
    ensures
      var out := Record(config, seen, isSpeech, durationMs);
      var applied := ApplyAll(AfterPush(h, out), out.1, env);
      Ongoing(h, applied, added, h.machine.mode.session.id) && applied.machine == out.0
  {
    var out := Record(config, seen, isSpeech, durationMs);
    assert AfterPush(h, out) == h.(machine := out.0);
    if out.1 != [] {
      assert out.1 == [out.1[0], out.1[1]];
      added := RotationLane(h, out.0, out.1[0], out.1[1], env);
    } else {
      added := [];
      LaneLast(h);
      assert Lane(h) + added == Lane(h);
    }
  }

  lemma OngoingConserves(h: Host, l: Ledger, applied: Host, added: seq<Part>, id: SessionId, pcm: Pcm)
    requires Outcomes(h, Some(id)) && Conserves(h, l) && Ongoing(h, applied, added, id)
    requires h.machine.mode.InSession() && h.machine.mode.session.id == id
    requires applied.machine.mode.InSession() && applied.machine.mode.session.id == id && applied.machine.ring == []
    requires h.discarding.None? || h.discarding == Some(id)
    ensures
      Conserves(if applied.openPart.Some? then WriteOpen(applied, pcm) else applied, Heard(l, applied.machine, pcm))
  {
    LiveKept(h, id);
    var r := if applied.openPart.Some? then WriteOpen(applied, pcm) else applied;
    if applied.openPart.Some? {
      assert Lane(r) == Extend(Lane(applied), pcm);
    }
    ContinueConserves(h, l, r, added, id, pcm, applied.openPart.Some?);
  }

  /** Speech or a short pause inside a session, possibly rotating the part. */
  lemma OngoingFrame(config: Config, h: Host, l: Ledger, frame: CaptureFrame, probability: real, env: seq<Await>)
    requires Sound(h) && Conserves(h, l) && h.machine.mode.InSession()
    requires Push(config, h.machine, VadOf(frame, probability), h.nextSession).0.mode.InSession()
    ensures Conserves(Consume(config, h, frame, probability, env), AccountFrame(config, l, frame, probability))
  {
    var out := Push(config, h.machine, VadOf(frame, probability), h.nextSession);
    PushShape(config, h.machine, VadOf(frame, probability), h.nextSession);
    var id := h.machine.mode.session.id;
    var seen := h.machine.(lastMonotonicMs := frame.monotonicMs, lastWallMs := frame.wallMs);
    var added := OngoingIntents(config, h, seen, probability >= config.vadThreshold, frame.durationMs, env);
    var applied := ApplyAll(AfterPush(h, out), out.1, env);
    OngoingConserves(h, l, applied, added, id, frame.pcm);
    assert AccountFrame(config, l, frame, probability) == Heard(l, out.0, frame.pcm);
    assert !(h.openPart.None? && h.discarding.None?);
  }

  /** The intents that end a session leave its parts and its fate alone. */
  lemma EndingLane(config: Config, h: Host, m: Machine, env: seq<Await>, id: SessionId)
    requires Sound(h) && h.machine.mode.InSession()
    ensures
      var out := Finalize(config, m, h.machine.mode.session);
      var r := ApplyAll(AfterPush(h, out), out.1, env);
      && Lane(r) == Lane(h) && r.preRoll == h.preRoll && r.machine == out.0 && r.nextSession == h.nextSession
      && (Discarded(h, id) <==> Discarded(r, id))
  {
    var out := Finalize(config, m, h.machine.mode.session);
    var pushed := AfterPush(h, out);
    assert out.1 == [out.1[0], out.1[1]];
    ApplyTwo(pushed, out.1[0], out.1[1], env);
    CloseLane(pushed, out.1[0], Next(env));
    OutcomeLane(ApplyIntent(pushed, out.1[0], Next(env)), out.1[1], Next(Rest(env)), id);
  }

  /** The frame whose silence closes the session belongs to nobody. */
  lemma ClosingFrame(config: Config, h: Host, l: Ledger, frame: CaptureFrame, probability: real, env: seq<Await>)
    requires Sound(h) && Conserves(h, l) && h.machine.mode.InSession()
    requires !Push(config, h.machine, VadOf(frame, probability), h.nextSession).0.mode.InSession()
    ensures Conserves(Consume(config, h, frame, probability, env), AccountFrame(config, l, frame, probability))
  {
    var seen := h.machine.(lastMonotonicMs := frame.monotonicMs, lastWallMs := frame.wallMs);
    EndSound(config, h, seen, env);
    AccountFrameOrdered(config, l, frame, probability);
    var r := Consume(config, h, frame, probability, env);
    forall id: nat | id < h.nextSession ensures Discarded(h, id) <==> Discarded(r, id) {
      EndingLane(config, h, seen, env, id);
    }
    EndingLane(config, h, seen, env, 0);
    SilentConserves(h, l, r, AccountFrame(config, l, frame, probability));
  }

  lemma {:induction false} TrimFramesSuffix(frames: seq<CaptureFrame>, capacityMs: int)
    ensures var r := TrimFrames(frames, capacityMs);
      |r| <= |frames| && r == frames[|frames| - |r|..]
    decreases |frames|
  {
    if |frames| > 1 && Sum(Durations(frames)) > capacityMs { TrimFramesSuffix(frames[1..], capacityMs); }
  }

  /** The pre-roll buffer is always the most recent input. */
  lemma BufferedSuffix(preRoll: seq<CaptureFrame>, fed: seq<Pcm>, frame: CaptureFrame, capacityMs: int)
    requires |preRoll| <= |fed| && Pcms(preRoll) == LastN(fed, |preRoll|)
    ensures var r := TrimFrames(preRoll + [frame], capacityMs);
      |r| <= |fed| + 1 && Pcms(r) == LastN(fed + [frame.pcm], |r|)
  {
    var longer := preRoll + [frame];
    var r := TrimFrames(longer, capacityMs);
    TrimFramesSuffix(longer, capacityMs);
    assert Pcms(longer) == Pcms(preRoll) + [frame.pcm];
    PcmsOfSuffix(longer, |longer| - |r|);
    SuffixOfSuffix(fed + [frame.pcm], |longer|, |r|);
    assert LastN(fed, |preRoll|) + [frame.pcm] == LastN(fed + [frame.pcm], |longer|);
  }

  lemma PcmsOfSuffix(frames: seq<CaptureFrame>, k: nat)
    requires k <= |frames|
    ensures Pcms(frames[k..]) == Pcms(frames)[k..]
  {
  }

  lemma SuffixOfSuffix(all: seq<Pcm>, n: nat, k: nat)
    requires k <= n <= |all|
    ensures LastN(all, n)[n - k..] == LastN(all, k)
  {
  }

  lemma OpeningLane(h: Host, preRoll: seq<CaptureFrame>, m: Machine, speechMs: nat, env: seq<Await>)
    requires Sound(h) && !h.machine.mode.InSession() && preRoll != [] && |m.ring| == |preRoll|
    ensures
      var out := Open(m, speechMs, h.nextSession);
      var r := ApplyAll(AfterPush(h, out).(preRoll := preRoll), out.1, env);
      && r.machine == out.0 && r.nextSession == h.nextSession + 1
      && r.pending == h.pending && r.settled == h.settled && r.preRoll == []
      && (r.openPart.None? ==> Lane(r) == Lane(h) && r.discarding == Some(h.nextSession))
      && (r.openPart.Some? ==>
            && r.discarding.None? && r.openPart.value.session == h.nextSession && r.openPart.value.index == 0
            && r.openPart.value.frames == Pcms(preRoll) && Lane(r) == Lane(h) + [r.openPart.value])
  {
    var out := Open(m, speechMs, h.nextSession);
    var held := AfterPush(h, out).(preRoll := preRoll);
    assert out.1 == [out.1[0], out.1[1]];
    ApplyTwo(held, out.1[0], out.1[1], env);
    FinishAllFrame(held, Next(env).finished);
    var announced := ApplyIntent(held, out.1[0], Next(env));
    OpenLane(announced, out.1[1], Next(Rest(env)));
    assert LastN(preRoll, |m.ring|) == preRoll;
    FinishAllFrame(announced, Next(Rest(env)).finished);
    OpeningSound(h, preRoll, m, speechMs, env);
  }

  /** Listening on: both buffers take the frame. */
  lemma QuietFrame(config: Config, h: Host, l: Ledger, frame: CaptureFrame, probability: real, env: seq<Await>)
    requires Sound(h) && Conserves(h, l) && !h.machine.mode.InSession()
    requires !Starts(Push(config, h.machine, VadOf(frame, probability), h.nextSession).1)
    ensures Conserves(Consume(config, h, frame, probability, env), AccountFrame(config, l, frame, probability))
  {
    PushShape(config, h.machine, VadOf(frame, probability), h.nextSession);
    AccountFrameOrdered(config, l, frame, probability);
    BufferedSuffix(h.preRoll, l.fed, frame, config.preRollMs);
    var r := Consume(config, h, frame, probability, env);
    SilentConserves(h, l, r, AccountFrame(config, l, frame, probability));
  }

  /** The opening frame: the ring the machine asks for is the pre-roll the host holds. */
  lemma OpeningFrame(config: Config, h: Host, l: Ledger, frame: CaptureFrame, probability: real, env: seq<Await>)
    requires Sound(h) && Conserves(h, l) && !h.machine.mode.InSession()
    requires Starts(Push(config, h.machine, VadOf(frame, probability), h.nextSession).1)
    ensures Conserves(Consume(config, h, frame, probability, env), AccountFrame(config, l, frame, probability))
  {
    var preRoll, r := TrimFrames(h.preRoll + [frame], config.preRollMs), Consume(config, h, frame, probability, env);
    var fed := l.fed + [frame.pcm];
    BufferedSuffix(h.preRoll, l.fed, frame, config.preRollMs);
    OpeningFrameOpens(config, h, frame, probability, env);
    OpeningAccount(config, l, frame, probability, Pcms(preRoll));
    OpeningConserves(h, l, r, fed, Pcms(preRoll));
  }

  lemma OpeningAccount(config: Config, l: Ledger, frame: CaptureFrame, probability: real, replayed: seq<Pcm>)
    requires Ordered(l)
    requires var out := Push(config, l.machine, VadOf(frame, probability), |l.spans|);
      Starts(out.1) && PreRollFrames(out.1) == |replayed|
    ensures
      var out := Push(config, l.machine, VadOf(frame, probability), |l.spans|);
      var fed := l.fed + [frame.pcm];
      var after := Ledger(out.0, fed, l.spans + [Span(|fed| - |replayed|, |fed|)]);
      AccountFrame(config, l, frame, probability) == after && Ordered(after)
  {
    AccountFrameOrdered(config, l, frame, probability);
  }

  lemma OpeningFrameOpens(config: Config, h: Host, frame: CaptureFrame, probability: real, env: seq<Await>)
    requires Sound(h) && !h.machine.mode.InSession()
    requires Starts(Push(config, h.machine, VadOf(frame, probability), h.nextSession).1)
    ensures
      var out := Push(config, h.machine, VadOf(frame, probability), h.nextSession);
      var preRoll := TrimFrames(h.preRoll + [frame], config.preRollMs);
      var r := Consume(config, h, frame, probability, env);
      Opens(h, r, Pcms(preRoll)) && r.machine == out.0 && PreRollFrames(out.1) == |preRoll|
  {
    var preRoll := TrimFrames(h.preRoll + [frame], config.preRollMs);
    var out := Push(config, h.machine, VadOf(frame, probability), h.nextSession);
    OpeningPush(config, h.machine, h.preRoll, h.nextSession, frame, probability);
    assert |Durations(preRoll)| == |preRoll|;
    var m := OpeningMachine(h.machine, preRoll, frame);
    OpeningLane(h, preRoll, m, h.machine.mode.speechMs + frame.durationMs, env);
    assert Consume(config, h, frame, probability, env)
      == ApplyAll(AfterPush(h, out).(preRoll := preRoll), out.1, env);
  }

  function OpeningMachine(m: Machine, preRoll: seq<CaptureFrame>, frame: CaptureFrame): Machine {
    m.(lastMonotonicMs := frame.monotonicMs, lastWallMs := frame.wallMs, ring := Durations(preRoll))
  }

  lemma OpeningRing(m: Machine, held: seq<CaptureFrame>, frame: CaptureFrame, capacityMs: int)
    requires Durations(held) == m.ring
    ensures var preRoll := TrimFrames(held + [frame], capacityMs);
      preRoll != [] && Durations(preRoll) == Trim(m.ring + [frame.durationMs], capacityMs)
  {
    BufferedAlike(held, m.ring, frame, capacityMs);
    TrimShortens(m.ring + [frame.durationMs], capacityMs);
  }

  /** The push that starts a session opens it over the host's own pre-roll. */
  lemma OpeningPush(
    config: Config, m: Machine, held: seq<CaptureFrame>, newId: SessionId, frame: CaptureFrame, probability: real)
    requires Durations(held) == m.ring && !m.mode.InSession()
    requires Starts(Push(config, m, VadOf(frame, probability), newId).1)
    ensures var preRoll := TrimFrames(held + [frame], config.preRollMs);
      && m.mode.Candidate? && preRoll != []
      && Push(config, m, VadOf(frame, probability), newId)
           == Open(OpeningMachine(m, preRoll, frame), m.mode.speechMs + frame.durationMs, newId)
  {
    OpeningRing(m, held, frame, config.preRollMs);
    PushOpens(config, m, VadOf(frame, probability), newId, Durations(TrimFrames(held + [frame], config.preRollMs)));
  }

  lemma PushOpens(config: Config, m: Machine, frame: VadFrame, newId: SessionId, ring: seq<nat>)
    requires !m.mode.InSession() && Starts(Push(config, m, frame, newId).1)
    requires ring == Trim(m.ring + [frame.durationMs], config.preRollMs)
    ensures m.mode.Candidate?
    ensures Push(config, m, frame, newId) ==
      Open(m.(lastMonotonicMs := frame.monotonicMs, lastWallMs := frame.wallMs, ring := ring),
           m.mode.speechMs + frame.durationMs, newId)
  {
  }

  lemma ListeningFrame(config: Config, h: Host, l: Ledger, frame: CaptureFrame, probability: real, env: seq<Await>)
    requires Sound(h) && Conserves(h, l) && !h.machine.mode.InSession()
    ensures Conserves(Consume(config, h, frame, probability, env), AccountFrame(config, l, frame, probability))
  {
    if Starts(Push(config, h.machine, VadOf(frame, probability), h.nextSession).1) {
      OpeningFrame(config, h, l, frame, probability, env);
    } else {
      QuietFrame(config, h, l, frame, probability, env);
    }
  }

  lemma ConsumeConserves(config: Config, h: Host, l: Ledger, frame: CaptureFrame, probability: real, env: seq<Await>)
    requires Sound(h) && Conserves(h, l)
    ensures Conserves(Consume(config, h, frame, probability, env), AccountFrame(config, l, frame, probability))
  {
    if !h.machine.mode.InSession() {
      ListeningFrame(config, h, l, frame, probability, env);
    } else if Push(config, h.machine, VadOf(frame, probability), h.nextSession).0.mode.InSession() {
      OngoingFrame(config, h, l, frame, probability, env);
    } else {
      ClosingFrame(config, h, l, frame, probability, env);
    }
  }

  lemma CloseSessionConserves(config: Config, h: Host, l: Ledger, env: seq<Await>)
    requires Sound(h) && Conserves(h, l)
    ensures Conserves(CloseSession(config, h, env), l.(machine := ForceFinalize(config, l.machine).0))
  {
    var r := CloseSession(config, h, env);
    CloseSessionSound(config, h, env);
    if h.machine.mode.InSession() {
      EndSound(config, h, h.machine, env);
      forall id: nat | id < h.nextSession ensures Discarded(h, id) <==> Discarded(r, id) {
        EndingLane(config, h, h.machine, env, id);
      }
      EndingLane(config, h, h.machine, env, 0);
    }
    assert r.machine == ForceFinalize(config, l.machine).0;
    SilentConserves(h, l, r, l.(machine := ForceFinalize(config, l.machine).0));
  }

  lemma SettleConserves(h: Host, l: Ledger, session: SessionId)
    requires Sound(h) && Conserves(h, l)
    ensures Conserves(SettleDeferred(h, session), l)
  {
    var r := SettleDeferred(h, session);
    if r != h {
      forall id: nat | id < h.nextSession ensures Discarded(h, id) <==> Discarded(r, id) {
        SettledAppend(h.settled, h.pending[session], id);
      }
    }
    SilentConserves(h, l, r, l);
  }

  lemma StepConserves(config: Config, h: Host, l: Ledger, event: Event)
    requires Sound(h) && Conserves(h, l)
    ensures Conserves(Step(config, h, event), Account(config, l, event))
  {
    match event
    case Frame(frame, p, epoch, gapEnv, env) =>
      if !Stale(frame, epoch) {
        if frame.discontinuityBeforeMs > 0 {
          CloseSessionSound(config, h, gapEnv);
          CloseSessionConserves(config, h, l, gapEnv);
          var closed := l.(machine := ForceFinalize(config, l.machine).0);
          ConsumeConserves(config, CloseSession(config, h, gapEnv), closed, frame, p, env);
        } else {
          ConsumeConserves(config, h, l, frame, p, env);
        }
      }
    case CloseNow(env) => CloseSessionConserves(config, h, l, env);
    case Finished(task) =>
      assert Lane(Finish(h, task)) == Lane(h);
      SilentConserves(h, l, Finish(h, task), l);
    case Settle(session) => SettleConserves(h, l, session);
  }

  /** Over every run, storage faults included: each session's parts hold a prefix of
      the frames the machine assigned to it, every frame once, in order, in parts
      numbered without a gap, and all of them unless storage gave the session up. */
  lemma {:induction false} EveryRunConserves(config: Config, events: seq<Event>)
    ensures Conserves(RunAll(config, events), AccountAll(config, events))
  {
    if events != [] {
      EveryRunSound(config, events[..|events| - 1]);
      EveryRunConserves(config, events[..|events| - 1]);
      StepConserves(config, RunAll(config, events[..|events| - 1]), AccountAll(config, events[..|events| - 1]),
                    events[|events| - 1]);
    }
  }

  /** A settled session that storage did not give up has its whole audio in its parts. */
  lemma SettledIsComplete(h: Host, l: Ledger, k: nat)
    requires Sound(h) && Conserves(h, l)
    requires k < |h.settled| && !h.settled[k].storageDiscarded
    ensures var id := h.settled[k].outcome.session;
      id < |l.spans| && Written(Lane(h), id) == l.fed[l.spans[id].from..l.spans[id].to]
  {
    var id := h.settled[k].outcome.session;
    assert id < |l.spans| && Owns(h, l, id);
    forall j | 0 <= j < |h.settled| && h.settled[j].outcome.session == id ensures j == k {
    }
    assert !SettledDiscarded(h.settled, id);
  }

  // ------------------------------------------------------------------ without faults

  predicate Calm(env: seq<Await>) {
    forall k :: 0 <= k < |env| ==> !env[k].storageFails
  }

  predicate CalmEvent(event: Event) {
    match event
    case Frame(_, _, _, gapEnv, env) => Calm(gapEnv) && Calm(env)
    case CloseNow(env) => Calm(env)
    case _ => true
  }

  ghost predicate AllJournaled(h: Host) {
    forall k :: 0 <= k < |h.detached| ==> h.detached[k].fate == Journaled
  }

  lemma {:induction false} ApplyAllCalm(h: Host, intents: seq<Intent>, env: seq<Await>)
    requires Calm(env) && AllJournaled(h)
    ensures AllJournaled(ApplyAll(h, intents, env))
    decreases intents
  {
    if intents != [] {
      FinishAllFrame(h, Next(env).finished);
      ApplyAllCalm(ApplyIntent(h, intents[0], Next(env)), intents[1..], Rest(env));
    }
  }

  /** When no storage operation fails, every closed part was journaled for publication. */
  lemma {:induction false} CalmRunJournalsEveryPart(config: Config, events: seq<Event>)
    requires forall k :: 0 <= k < |events| ==> CalmEvent(events[k])
    ensures AllJournaled(RunAll(config, events))
  {
    if events != [] {
      var before, event := RunAll(config, events[..|events| - 1]), events[|events| - 1];
      CalmRunJournalsEveryPart(config, events[..|events| - 1]);
      match event
      case Frame(frame, p, epoch, gapEnv, env) =>
        if !Stale(frame, epoch) {
          var ready := before;
          if frame.discontinuityBeforeMs > 0 {
            CloseSessionCalm(config, before, gapEnv);
            ready := CloseSession(config, before, gapEnv);
          }
          ConsumeCalm(config, ready, frame, p, env);
        }
      case CloseNow(env) => CloseSessionCalm(config, before, env);
      case Finished(task) =>
      case Settle(session) =>
    }
  }

  lemma CloseSessionCalm(config: Config, h: Host, env: seq<Await>)
    requires Calm(env) && AllJournaled(h)
    ensures AllJournaled(CloseSession(config, h, env))
  {
    var out := ForceFinalize(config, h.machine);
    ApplyAllCalm(AfterPush(h, out), out.1, env);
  }

  lemma ConsumeCalm(config: Config, h: Host, frame: CaptureFrame, probability: real, env: seq<Await>)
    requires Calm(env) && AllJournaled(h)
    ensures AllJournaled(Consume(config, h, frame, probability, env))
  {
    var out := Push(config, h.machine, VadOf(frame, probability), h.nextSession);
    var pushed := AfterPush(h, out);
    var buffering := h.openPart.None? && h.discarding.None?;
    var held := if buffering then pushed.(preRoll := TrimFrames(h.preRoll + [frame], config.preRollMs)) else pushed;
    ApplyAllCalm(held, out.1, env);
  }
}
