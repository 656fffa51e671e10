/** What every run of a worker keeps: requests belong to the current process and are
    settled once, exits are reported once, processes never overlap unless one outlived
    SIGKILL, and a finished close leaves nothing waiting. */
module WorkerSafety {

  import opened Common
  import opened WorkerModel

  // ----------------------------------------------------------------- the invariant

  ghost predicate Current(w: Worker) {
    && Known(w)
    && (w.child.Some? ==>
          && w.child.value == w.nextGeneration && w.child.value !in w.stopping
          && !w.generations[w.child.value].didExit && !w.generations[w.child.value].notified)
    && (w.closing.AwaitingShutdown? ==> w.child.None? || w.child == Some(w.closing.generation))
    && (w.closing.Joining? || w.closing.Finished? ==> w.child.None?)
  }

  ghost predicate Awaited(w: Worker, t: Token) {
    exists id :: id in w.pending && w.pending[id].token == t
  }

  /** Every request waits on the current process or has been settled, once. */
  ghost predicate Requests(w: Worker) {
    && (forall id :: id in w.pending ==>
          w.child == Some(w.pending[id].generation) && w.pending[id].token < w.nextToken)
    && (forall a, b :: a in w.pending && b in w.pending && w.pending[a].token == w.pending[b].token ==> a == b)
    && (forall t :: t in w.settlements <==> 0 <= t < w.nextToken)
    && (forall t :: t in w.settlements ==>
          |w.settlements[t]| <= 1 && (w.settlements[t] == [] <==> Awaited(w, t)))
    && (w.closing.AwaitingShutdown? ==> w.closing.token < w.nextToken)
  }

  predicate Noticed(notices: seq<(GenId, ExitReason)>, g: GenId) {
    exists k :: 0 <= k < |notices| && notices[k].0 == g
  }

  /** Every process is current, gone, being joined or beyond killing. */
  ghost predicate Fates(w: Worker) {
    && (forall g :: g in w.generations <==> 1 <= g <= w.nextGeneration)
    && (forall g :: g in w.generations ==>
          w.child == Some(g) || w.generations[g].didExit || g in w.stopping || g in w.survivors)
  }

  /** Exits are reported at most once, and recorded as such. */
  ghost predicate Reports(w: Worker) {
    && (forall g :: g in w.generations ==> (w.generations[g].notified <==> Noticed(w.notices, g)))
    && (forall k :: 0 <= k < |w.notices| ==> w.notices[k].0 in w.generations)
    && (forall j, k :: 0 <= j < k < |w.notices| ==> w.notices[j].0 != w.notices[k].0)
  }

  /** All but the current process, and perhaps `except`, have been reported. */
  ghost predicate Reported(w: Worker, except: Option<GenId>) {
    forall g :: g in w.generations && w.child != Some(g) && except != Some(g) ==> w.generations[g].notified
  }

  ghost predicate Processes(w: Worker) { Fates(w) && Reports(w) && Reported(w, None) }

  ghost predicate Sound(w: Worker) { Current(w) && Requests(w) && Processes(w) }

  // -------------------------------------------------------------------- the pieces

  lemma FailedRequests(w: Worker, g: GenId)
    requires Requests(w.(child := Some(g)))
    ensures
      var r := FailGeneration(w, g);
      && r.pending == map[] && Requests(r) && r == w.(pending := r.pending, settlements := r.settlements)
      && forall t :: t in r.settlements ==> r.settlements[t] != []
  {
    var r := FailGeneration(w, g);
    assert forall id :: id in w.pending ==> w.pending[id].generation == g;
    forall t | t in w.settlements
      ensures Waits(w, g, t) <==> Awaited(w, t)
    {
      if Awaited(w, t) {
        var id :| id in w.pending && w.pending[id].token == t;
        assert w.pending[id] == Pending(g, t);
      }
    }
    forall t | t in r.settlements
      ensures |r.settlements[t]| == 1
    {
      assert Awaited(w.(child := Some(g)), t) <==> Awaited(w, t);
    }
  }

  lemma NoRequests(w: Worker, g: GenId)
    requires Requests(w) && w.child != Some(g)
    ensures FailGeneration(w, g) == w
  {
    assert FailGeneration(w, g).pending == w.pending;
    forall t | t in w.settlements
      ensures FailGeneration(w, g).settlements[t] == w.settlements[t]
    {
      assert !Waits(w, g, t);
    }
    assert FailGeneration(w, g).settlements == w.settlements;
  }

  lemma NotifySound(w: Worker, g: GenId)
    requires g in w.generations && w.child != Some(g)
    requires Current(w) && Requests(w) && Fates(w) && Reports(w) && Reported(w, Some(g))
    ensures Sound(Notify(w, g))
  {
    var r := Notify(w, g);
    if !w.generations[g].notified {
      forall h | h in r.generations
        ensures r.generations[h].notified <==> Noticed(r.notices, h)
      {
        NoticedGrows(w.notices, r.notices[|w.notices|], h);
      }
      forall j | 0 <= j < |w.notices| ensures w.notices[j].0 != g { assert !Noticed(w.notices, g); }
    }
    SameRequests(w, r);
  }

  /** `Requests` looks at nothing else. */
  lemma SameRequests(w: Worker, r: Worker)
    requires Requests(w) && r.pending == w.pending && r.settlements == w.settlements && r.nextToken == w.nextToken
    requires r.child == w.child || w.pending == map[]
    requires r.closing.AwaitingShutdown? ==> r.closing.token < r.nextToken
    ensures Requests(r)
  {
    forall t | t in r.settlements
      ensures r.settlements[t] == [] <==> Awaited(r, t)
    {
      assert Awaited(r, t) <==> Awaited(w, t);
    }
  }

  lemma NoticedGrows(notices: seq<(GenId, ExitReason)>, next: (GenId, ExitReason), g: GenId)
    ensures Noticed(notices + [next], g) <==> Noticed(notices, g) || next.0 == g
  {
    if Noticed(notices, g) {
      var k :| 0 <= k < |notices| && notices[k].0 == g;
      assert (notices + [next])[k].0 == g;
    }
    if next.0 == g { assert (notices + [next])[|notices|].0 == g; }
  }

  /** Everything but the requests and the report of `g`, after its fencing. */
  ghost predicate Fenced(w: Worker, g: GenId) {
    && g in w.generations && w.child != Some(g)
    && Current(w) && Fates(w) && Reports(w) && Reported(w, Some(g))
  }

  lemma OffDutyFenced(
    w: Worker, g: GenId, reason: ExitReason, pending: map<RequestId, Pending>,
    settlements: map<Token, seq<Settlement>>)
    requires Sound(w) && g in w.generations
    requires forall id :: id in pending ==> id in w.pending && pending[id] == w.pending[id]
    ensures
      var off := OffDuty(w, g, reason);
      Fenced(off.(stopping := off.stopping + {g}, pending := pending, settlements := settlements), g)
  {
  }

  lemma GoneFenced(w: Worker, g: GenId, pending: map<RequestId, Pending>, settlements: map<Token, seq<Settlement>>)
    requires Sound(w) && g in w.generations
    requires forall id :: id in pending ==> id in w.pending && pending[id] == w.pending[id]
    ensures Fenced(Gone(w, g).(pending := pending, settlements := settlements), g)
  {
  }

  /** Retiring a generation, current or old. */
  lemma RecycleSound(w: Worker, g: GenId, reason: ExitReason)
    requires Sound(w) && g in w.generations
    ensures Sound(Recycle(w, g, reason)) && Recycle(w, g, reason).child != Some(g)
    ensures Recycle(w, g, reason).closing == w.closing
  {
    if g !in w.stopping {
      var off := OffDuty(w, g, reason);
      var failed := FailGeneration(off, g);
      RequestsFail(w, off, g);
      var stopping := failed.(stopping := failed.stopping + {g});
      OffDutyFenced(w, g, reason, failed.pending, failed.settlements);
      SameRequests(failed, stopping);
      NotifySound(stopping, g);
    }
  }

  /** Taking a process off duty and failing its requests leaves nothing waiting on it. */
  lemma RequestsFail(w: Worker, off: Worker, g: GenId)
    requires Requests(w) && off.pending == w.pending && off.settlements == w.settlements && off.nextToken == w.nextToken
    requires off.closing == w.closing && off.child == if w.child == Some(g) then None else w.child
    ensures Requests(FailGeneration(off, g))
    ensures
      var r := FailGeneration(off, g);
      r == off.(pending := r.pending, settlements := r.settlements) && (w.child == Some(g) ==> r.pending == map[])
  {
    if w.child == Some(g) {
      SameRequests(w, off.(child := Some(g)));
      FailedRequests(off, g);
    } else {
      SameRequests(w, off);
      NoRequests(off, g);
    }
  }

  lemma ExitSound(w: Worker, g: GenId)
    requires Sound(w) && g in w.generations
    ensures Sound(ChildClosed(w, g))
  {
    var gone := Gone(w, g);
    var failed := FailGeneration(gone, g);
    RequestsFail(w, gone, g);
    GoneFenced(w, g, failed.pending, failed.settlements);
    NotifySound(failed, g);
  }

  // --------------------------------------------------------------------- operations

  lemma RefuseSound(w: Worker)
    requires Sound(w)
    ensures Sound(Refuse(w))
  {
    var r := Refuse(w);
    forall t | t in r.settlements
      ensures r.settlements[t] == [] <==> Awaited(r, t)
    {
      assert Awaited(r, t) <==> Awaited(w, t);
    }
  }

  /** An idle timer set or cleared changes nothing that matters. */
  lemma TimerSound(w: Worker, g: GenId, running: bool)
    requires Sound(w) && g in w.generations
    ensures Sound(w.(generations := w.generations[g := w.generations[g].(idleTimer := running)]))
  {
    SameRequests(w, w.(generations := w.generations[g := w.generations[g].(idleTimer := running)]));
  }

  lemma AcceptSound(w: Worker, g: GenId, id: RequestId)
    requires Sound(w) && w.child == Some(g) && id !in w.pending
    ensures Sound(Accept(w, g, id))
  {
    var r := Accept(w, g, id);
    forall t | t in r.settlements
      ensures |r.settlements[t]| <= 1 && (r.settlements[t] == [] <==> Awaited(r, t))
    {
      if t == w.nextToken {
        assert r.pending[id].token == t;
      } else {
        AwaitedGrows(w, r, id, t);
      }
    }
  }

  lemma AwaitedGrows(w: Worker, r: Worker, id: RequestId, t: Token)
    requires id !in w.pending && id in r.pending && r.pending == w.pending[id := r.pending[id]]
    ensures Awaited(r, t) <==> Awaited(w, t) || r.pending[id].token == t
  {
    if Awaited(w, t) {
      var other :| other in w.pending && w.pending[other].token == t;
      assert other in r.pending && r.pending[other].token == t;
    }
  }

  lemma WriteSound(w: Worker, g: GenId, id: RequestId)
    requires Sound(w) && g in w.generations
    ensures Sound(Write(w, g, id))
  {
    if w.generations[g].didExit || w.child != Some(g) {
      RefuseSound(w);
    } else {
      TimerSound(w, g, false);
      if id in w.pending { RefuseSound(CancelIdle(w, g)); } else { AcceptSound(CancelIdle(w, g), g, id); }
    }
  }

  lemma WriteFrame(w: Worker, g: GenId, id: RequestId)
    requires g in w.generations
    ensures var r := Write(w, g, id);
      r.closing == w.closing && r.nextToken == w.nextToken + 1 && r.child == w.child
  {
  }

  lemma NothingPending(w: Worker)
    requires Requests(w) && w.child.None?
    ensures w.pending == map[]
  {
    assert forall id :: id !in w.pending;
  }

  /** A process is spawned only when every earlier one is gone or outlived SIGKILL. */
  lemma EnsureSound(w: Worker, spawns: bool)
    requires Sound(w)
    ensures Sound(EnsureStarted(w, spawns).0)
    ensures EnsureStarted(w, spawns).1.Spawned? ==>
      forall g :: g in w.generations ==> w.generations[g].didExit || g in w.survivors
  {
    var (r, reply) := EnsureStarted(w, spawns);
    if reply.Ready? {
      TimerSound(w, w.child.value, false);
    } else if reply.Spawned? {
      SpawnSound(w, r);
    }
  }

  lemma SpawnSound(w: Worker, r: Worker)
    requires Sound(w) && !w.Closed() && w.child.None? && w.stopping == {} && r == EnsureStarted(w, true).0
    requires EnsureStarted(w, true).1.Spawned?
    ensures Sound(r)
  {
    NothingPending(w);
    SameRequests(w, r);
    assert w.nextGeneration + 1 !in w.generations;
    forall g | g in r.generations
      ensures r.generations[g].notified <==> Noticed(r.notices, g)
    {
      if g == r.nextGeneration { assert !Noticed(w.notices, g); }
    }
  }

  /** An answer settles the request it names, if that request went to the same process. */
  lemma DispatchSound(w: Worker, g: GenId, line: Option<Response>)
    requires Sound(w) && g in w.generations
    ensures Sound(Dispatch(w, g, line))
    ensures w.child != Some(g) ==> Dispatch(w, g, line) == w
  {
    if line.Some? && line.value.id in w.pending && w.pending[line.value.id].generation == g {
      var id := line.value.id;
      var t := w.pending[id].token;
      assert Awaited(w, t);
      var answered := w.(
        pending := w.pending - {id}, settlements := w.settlements[t := w.settlements[t] + [Resolved(line.value)]]);
      AnswerSound(w, id, answered);
      TimerSound(answered, g, true);
    }
  }

  lemma AnswerSound(w: Worker, id: RequestId, r: Worker)
    requires Sound(w) && id in w.pending && r.pending == w.pending - {id}
    requires r == w.(pending := r.pending, settlements := r.settlements)
    requires r.settlements.Keys == w.settlements.Keys
    requires forall t :: t in w.settlements ==>
      if t == w.pending[id].token then |r.settlements[t]| == 1 else r.settlements[t] == w.settlements[t]
    ensures Sound(r)
  {
    forall t | t in r.settlements
      ensures |r.settlements[t]| <= 1 && (r.settlements[t] == [] <==> Awaited(r, t))
    {
      if t != w.pending[id].token && Awaited(w, t) {
        var other :| other in w.pending && w.pending[other].token == t;
        assert other in r.pending && r.pending[other].token == t;
      }
    }
  }

  lemma IdleSound(w: Worker, g: GenId)
    requires Sound(w) && g in w.generations
    ensures Sound(IdleFires(w, g))
  {
    TimerSound(w, g, false);
    RecycleSound(CancelIdle(w, g), g, ByIdle);
  }

  /** Closing marks the current process and rejects what waits on it. */
  lemma MarkedSound(w: Worker, marked: Worker)
    requires Sound(w) && w.child.Some? && w.closing.AwaitingStart?
    requires
      var g := w.child.value;
      marked == w.(generations := w.generations[g := w.generations[g].(reason := Some(ByClose), idleTimer := false)])
    ensures
      var failed := FailGeneration(marked, w.child.value);
      Sound(failed) && failed == marked.(pending := failed.pending, settlements := failed.settlements)
  {
    SameRequests(w, marked);
    FailedRequests(marked, w.child.value);
  }

  lemma CloseCurrentSound(w: Worker)
    requires Sound(w) && w.closing.AwaitingStart?
    ensures Sound(CloseCurrent(w))
  {
    if w.child.Some? {
      var g := w.child.value;
      var marked := w.(
        generations := w.generations[g := w.generations[g].(reason := Some(ByClose), idleTimer := false)]);
      var failed := FailGeneration(marked, g);
      MarkedSound(w, marked);
      WriteSound(failed, g, w.closing.shutdownId);
      WriteFrame(failed, g, w.closing.shutdownId);
      var asked := Write(failed, g, w.closing.shutdownId);
      SameRequests(asked, asked.(closing := AwaitingShutdown(g, w.nextToken)));
    } else {
      SameRequests(w, w.(closing := Joining));
    }
  }

  /** With the process retired, the last sweep of `close` finds nothing to reject. */
  lemma FailAllFindsNothing(w: Worker)
    requires Sound(w) && w.child.None?
    ensures w.pending == map[] && FailAll(w) == w
    ensures forall t :: 0 <= t < w.nextToken ==> t in w.settlements && |w.settlements[t]| == 1
  {
    NothingPending(w);
    forall t | t in w.settlements
      ensures FailAll(w).settlements[t] == w.settlements[t] && |w.settlements[t]| == 1
    {
      assert !Awaited(w, t);
    }
    assert FailAll(w).settlements == w.settlements;
  }

  lemma CloseStepSound(w: Worker)
    requires Sound(w) && CloseCanGoOn(w)
    ensures Sound(CloseStep(w))
  {
    if w.closing.AwaitingStart? {
      CloseCurrentSound(w);
    } else if w.closing.AwaitingShutdown? {
      var g := w.closing.generation;
      RecycleSound(w, g, Unexpected);
      RecycleTakesChild(w, g);
      SameRequests(Recycle(w, g, Unexpected), CloseStep(w));
    } else {
      FailAllFindsNothing(w);
      SameRequests(w, w.(closing := Finished));
    }
  }

  lemma RecycleTakesChild(w: Worker, g: GenId)
    requires Sound(w) && g in w.generations && (w.child.None? || w.child == Some(g))
    ensures Recycle(w, g, Unexpected).child.None?
  {
  }

  lemma JoinedSound(w: Worker, g: GenId)
    requires Sound(w) && g in w.stopping
    ensures Sound(Step(w, Joined(g)))
  {
    SameRequests(w, Step(w, Joined(g)));
  }

  /** Calls made by the owner. */
  lemma CallSound(w: Worker, e: Event)
    requires Sound(w) && Enabled(w, e) && (e.Ensure? || e.Request? || e.Close?)
    ensures Sound(Step(w, e))
  {
    if e.Ensure? {
      EnsureSound(w, e.spawns);
    } else if e.Request? {
      if w.Closed() || w.child.None? { RefuseSound(w); } else { WriteSound(w, w.child.value, e.id); }
    } else if !w.Closed() {
      SameRequests(w, w.(closing := AwaitingStart(e.shutdownId)));
    }
  }

  lemma StartedSound(w: Worker, g: GenId)
    requires Sound(w)
    ensures Sound(Started(w, g))
  {
    SameRequests(w, Started(w, g));
  }

  /** What the process does. */
  lemma ProcessSound(w: Worker, e: Event)
    requires Sound(w) && Enabled(w, e) && (e.Spawn? || e.ProcessError? || e.Exit? || e.Line?)
    ensures Sound(Step(w, e))
  {
    if e.Exit? {
      ExitSound(w, e.generation);
    } else if e.Line? {
      DispatchSound(w, e.generation, e.line);
    } else {
      StartedSound(w, e.generation);
      if e.ProcessError? { RecycleSound(Started(w, e.generation), e.generation, Unexpected); }
    }
  }

  /** Timers, failed writes, joins and the progress of `close`. */
  lemma FollowUpSound(w: Worker, e: Event)
    requires Sound(w) && Enabled(w, e)
    requires e.Timeout? || e.WriteError? || e.IdleTimer? || e.Joined? || e.CloseGoesOn?
    ensures Sound(Step(w, e))
  {
    if e.Timeout? {
      RecycleSound(w, w.pending[e.id].generation, Unexpected);
    } else if e.WriteError? {
      if e.id in w.pending && w.pending[e.id].generation == e.generation { RecycleSound(w, e.generation, Unexpected); }
    } else if e.IdleTimer? {
      IdleSound(w, e.generation);
    } else if e.Joined? {
      JoinedSound(w, e.generation);
    } else {
      CloseStepSound(w);
    }
  }

  lemma StepSound(w: Worker, e: Event)
    requires Sound(w) && Enabled(w, e)
    ensures Sound(Step(w, e))
  {
    if e.Ensure? || e.Request? || e.Close? {
      CallSound(w, e);
    } else if e.Spawn? || e.ProcessError? || e.Exit? || e.Line? {
      ProcessSound(w, e);
    } else {
      FollowUpSound(w, e);
    }
  }

  // ------------------------------------------------------------------------ all runs

  /** A run, one worker state after the other, from a fresh worker. */
  ghost predicate IsRun(states: seq<Worker>, events: seq<Event>) {
    && |states| == |events| + 1
    && (exists idle :: states[0] == Start(idle))
    && forall k :: 0 <= k < |events| ==> Leads(states, events, k)
  }

  ghost predicate Leads(states: seq<Worker>, events: seq<Event>, k: nat)
    requires k < |events| < |states|
  {
    Sound(states[k]) ==> Enabled(states[k], events[k]) && states[k + 1] == Step(states[k], events[k])
  }

  lemma {:induction false} EveryRunSound(states: seq<Worker>, events: seq<Event>, k: nat)
    requires IsRun(states, events) && k < |states|
    ensures Sound(states[k])
  {
    if k > 0 {
      EveryRunSound(states, events, k - 1);
      assert Leads(states, events, k - 1);
      StepSound(states[k - 1], events[k - 1]);
    }
  }

  /** What a caller was told is never taken back or added to. */
  ghost predicate Remembers(w: Worker, r: Worker) {
    forall t :: t in w.settlements && w.settlements[t] != [] ==>
      t in r.settlements && r.settlements[t] == w.settlements[t]
  }

  lemma FailRemembers(w: Worker, g: GenId)
    requires forall t :: t in w.settlements && w.settlements[t] != [] ==> !Awaited(w, t)
    ensures Remembers(w, FailGeneration(w, g))
  {
    forall t | t in w.settlements && w.settlements[t] != []
      ensures !Waits(w, g, t)
    {
      assert !Awaited(w, t);
    }
  }

  lemma RecycleRemembers(w: Worker, g: GenId, reason: ExitReason)
    requires Requests(w) && g in w.generations
    ensures Remembers(w, Recycle(w, g, reason))
  {
    var off := OffDuty(w, g, reason);
    forall t | t in off.settlements && off.settlements[t] != [] ensures !Awaited(off, t) { assert !Awaited(w, t); }
    FailRemembers(off, g);
  }

  lemma ExitRemembers(w: Worker, g: GenId)
    requires Requests(w) && g in w.generations
    ensures Remembers(w, ChildClosed(w, g))
  {
    var gone := Gone(w, g);
    forall t | t in gone.settlements && gone.settlements[t] != [] ensures !Awaited(gone, t) { assert !Awaited(w, t); }
    FailRemembers(gone, g);
  }

  lemma CloseRemembers(w: Worker)
    requires Sound(w) && CloseCanGoOn(w)
    ensures Remembers(w, CloseStep(w))
  {
    if w.closing.AwaitingStart? {
      if w.child.Some? {
        var g := w.child.value;
        var marked := w.(
          generations := w.generations[g := w.generations[g].(reason := Some(ByClose), idleTimer := false)]);
        forall t | t in marked.settlements && marked.settlements[t] != [] ensures !Awaited(marked, t) {
          assert !Awaited(w, t);
        }
        FailRemembers(marked, g);
      }
    } else if w.closing.AwaitingShutdown? {
      RecycleRemembers(w, w.closing.generation, Unexpected);
    } else {
      FailAllFindsNothing(w);
    }
  }

  /** The caller of a request hears of it once, whatever happens later. */
  lemma SettledOnce(w: Worker, e: Event)
    requires Sound(w) && Enabled(w, e)
    ensures Remembers(w, Step(w, e))
  {
    if e.ProcessError? {
      SameRequests(w, Started(w, e.generation));
      RecycleRemembers(Started(w, e.generation), e.generation, Unexpected);
    } else if e.Exit? {
      ExitRemembers(w, e.generation);
    } else if e.Line? {
      LineRemembers(w, e.generation, e.line);
    } else if e.Timeout? {
      RecycleRemembers(w, w.pending[e.id].generation, Unexpected);
    } else if e.WriteError? {
      if e.id in w.pending && w.pending[e.id].generation == e.generation {
        RecycleRemembers(w, e.generation, Unexpected);
      }
    } else if e.IdleTimer? {
      SameRequests(w, CancelIdle(w, e.generation));
      RecycleRemembers(CancelIdle(w, e.generation), e.generation, ByIdle);
    } else if e.CloseGoesOn? {
      CloseRemembers(w);
    }
  }

  lemma LineRemembers(w: Worker, g: GenId, line: Option<Response>)
    requires Requests(w) && g in w.generations
    ensures Remembers(w, Dispatch(w, g, line))
  {
    if line.Some? && line.value.id in w.pending {
      assert Awaited(w, w.pending[line.value.id].token);
    }
  }
}
