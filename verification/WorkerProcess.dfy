/** The worker process owner as it is written (src/asr/worker-process.ts): one object
    whose maps and flags change on every event, proved to do what `WorkerModel` says.
    `settlements` and `notices` stand for the promises settled and the `onExit` calls. */
module WorkerProcessClass {

  import opened Common
  import opened WorkerModel
  import opened WorkerSafety

  class WorkerProcess {
    const idleEnabled: bool
    var generations: map<GenId, Generation>
    var child: Option<GenId>
    var startingGeneration: Option<GenId>
    var stopping: set<GenId>
    var pending: map<RequestId, Pending>
    var closing: Closing
    var nextGeneration: GenId
    var survivors: set<GenId>
    var nextToken: Token
    var settlements: map<Token, seq<Settlement>>
    var notices: seq<(GenId, ExitReason)>

    ghost function Value(): Worker reads this {
      Worker(generations, child, startingGeneration, stopping, pending, closing, nextGeneration, survivors,
             nextToken, settlements, notices, idleEnabled)
    }

    constructor (idleEnabled: bool)
      ensures Value() == Start(idleEnabled) && Sound(Value())
    {
      this.idleEnabled := idleEnabled;
      generations, child, startingGeneration, stopping, pending := map[], None, None, {}, map[];
      closing, nextGeneration, survivors, nextToken, settlements, notices := Open, 0, {}, 0, map[], [];
    }

    method CancelIdleRetirement(g: GenId)
      requires g in generations
      modifies `generations
      ensures Value() == CancelIdle(old(Value()), g)
    {
      generations := generations[g := generations[g].(idleTimer := false)];
    }

    method NotifyExit(g: GenId)
      requires g in generations
      modifies `generations, `notices
      ensures Value() == Notify(old(Value()), g)
    {
      var gen := generations[g];
      if gen.notified {
        return;
      }
      generations := generations[g := gen.(notified := true)];
      var reason := if gen.reason.Some? then gen.reason.value else if closing.Open? then Unexpected else ByClose;
      notices := notices + [(g, reason)];
    }

    method Reject(id: RequestId)
      requires id in pending && pending[id].token in settlements
      modifies `pending, `settlements
      ensures Value() == RejectOne(old(Value()), id)
    {
      var t := pending[id].token;
      settlements := settlements[t := settlements[t] + [Rejected]];
      pending := pending - {id};
    }

    /** Rejects the requests of one generation, one by one. */
    method FailRequests(g: GenId)
      requires Separate(Value())
      modifies `pending, `settlements
      ensures Value() == FailGeneration(old(Value()), g)
    {
      ghost var w := Value();
      var left := pending.Keys;
      FailStart(w, g);
      while left != {}
        invariant left <= w.pending.Keys && Value() == PartlyFailed(w, g, left)
        decreases |left|
      {
        var id: RequestId :| id in left;
        FailStep(w, g, left, id);
        if pending[id].generation == g {
          Reject(id);
        }
        left := left - {id};
      }
      FailEnd(w, g);
    }

    /** Fences a generation off and starts joining its process. */
    method RecycleGeneration(g: GenId, reason: ExitReason)
      requires g in generations && Separate(Value())
      modifies this
      ensures Value() == Recycle(old(Value()), g, reason)
    {
      if g in stopping {
        return;
      }
      var gen := generations[g];
      generations := generations[g := gen.(
        reason := if gen.reason.Some? then gen.reason else Some(reason), idleTimer := false)];
      if child == Some(g) {
        child := None;
      }
      assert Value() == OffDuty(old(Value()), g, reason);
      FailRequests(g);
      stopping := stopping + {g};
      NotifyExit(g);
    }

    method OnClose(g: GenId)
      requires g in generations && Separate(Value())
      modifies this
      ensures Value() == ChildClosed(old(Value()), g)
    {
      generations := generations[g := generations[g].(idleTimer := false, didExit := true)];
      if child == Some(g) {
        child := None;
      }
      if startingGeneration == Some(g) {
        startingGeneration := None;
      }
      assert Value() == Gone(old(Value()), g);
      FailRequests(g);
      NotifyExit(g);
    }

    method EnsureRunning(spawns: bool) returns (reply: StartReply)
      requires child.Some? ==> child.value in generations
      modifies this
      ensures (Value(), reply) == EnsureStarted(old(Value()), spawns)
    {
      if !closing.Open? {
        return ClosedReply;
      }
      if child.Some? {
        CancelIdleRetirement(child.value);
        return Ready;
      }
      if startingGeneration.Some? {
        return AwaitStart;
      }
      if stopping != {} {
        return AwaitStop;
      }
      if !spawns {
        return SpawnFailed;
      }
      nextGeneration := nextGeneration + 1;
      generations := generations[nextGeneration := Generation(false, false, None, false)];
      child, startingGeneration := Some(nextGeneration), Some(nextGeneration);
      reply := Spawned(nextGeneration);
    }

    method RefuseRequest()
      modifies `nextToken, `settlements
      ensures Value() == Refuse(old(Value()))
    {
      settlements, nextToken := settlements[nextToken := [Rejected]], nextToken + 1;
    }

    method WriteRequest(g: GenId, id: RequestId)
      requires g in generations
      modifies this
      ensures Value() == Write(old(Value()), g, id)
    {
      if generations[g].didExit || child != Some(g) {
        RefuseRequest();
        return;
      }
      CancelIdleRetirement(g);
      if id in pending {
        RefuseRequest();
        return;
      }
      pending := pending[id := Pending(g, nextToken)];
      settlements, nextToken := settlements[nextToken := []], nextToken + 1;
    }

    method SendRequest(id: RequestId)
      requires child.Some? ==> child.value in generations
      modifies this
      ensures Value() == Send(old(Value()), id)
    {
      if !closing.Open? || child.None? {
        RefuseRequest();
        return;
      }
      WriteRequest(child.value, id);
    }

    method OnLine(g: GenId, line: Option<Response>)
      requires g in generations && Separate(Value())
      modifies this
      ensures Value() == Dispatch(old(Value()), g, line)
    {
      if line.None? {
        return;
      }
      var response := line.value;
      if response.id !in pending || pending[response.id].generation != g {
        return;
      }
      var t := pending[response.id].token;
      pending := pending - {response.id};
      settlements := settlements[t := settlements[t] + [Resolved(response)]];
      if closing.Open? && (!response.ok || !response.isShutdown) && child == Some(g) && idleEnabled {
        generations := generations[g := generations[g].(idleTimer := true)];
      }
    }

    method OnIdleTimer(g: GenId)
      requires g in generations && Separate(Value())
      modifies this
      ensures Value() == IdleFires(old(Value()), g)
    {
      CancelIdleRetirement(g);
      if !closing.Open? || child != Some(g) {
        return;
      }
      if exists id :: id in pending && pending[id].generation == g {
        return;
      }
      RecycleGeneration(g, ByIdle);
    }

    /** `close` up to its shutdown request, once a start in progress has settled. */
    method AskToShutDown()
      requires closing.AwaitingStart? && (child.Some? ==> child.value in generations) && Separate(Value())
      modifies this
      ensures Value() == CloseCurrent(old(Value()))
    {
      if child.None? {
        closing := Joining;
        return;
      }
      var g, token, shutdownId := child.value, nextToken, closing.shutdownId;
      generations := generations[g := generations[g].(reason := Some(ByClose), idleTimer := false)];
      FailRequests(g);
      WriteRequest(g, shutdownId);
      closing := AwaitingShutdown(g, token);
    }

    /** One event of a sound worker. */
    method Handle(e: Event) returns (reply: Option<StartReply>)
      requires Sound(Value()) && Enabled(Value(), e)
      modifies this
      ensures Value() == Step(old(Value()), e) && Sound(Value())
      ensures reply == if e.Ensure? then Some(EnsureStarted(old(Value()), e.spawns).1) else None
    {
      StepSound(Value(), e);
      SoundIsSeparate(Value());
      reply := None;
      match e {
        case Ensure(spawns) =>
          var answer := EnsureRunning(spawns);
          reply := Some(answer);
        case Request(id) => SendRequest(id);
        case Spawn(g) => SettleStart(g);
        case ProcessError(g) =>
          SettleStart(g);
          RecycleGeneration(g, Unexpected);
        case Exit(g) => OnClose(g);
        case Line(g, line) => OnLine(g, line);
        case Timeout(id) => RecycleGeneration(pending[id].generation, Unexpected);
        case WriteError(id, g) =>
          if id in pending && pending[id].generation == g { RecycleGeneration(g, Unexpected); }
        case IdleTimer(g) => OnIdleTimer(g);
        case Joined(g) => Join(g);
        case Close(shutdownId) =>
          if closing.Open? { closing := AwaitingStart(shutdownId); }
        case CloseGoesOn => ContinueClose();
      }
    }

    method SettleStart(g: GenId)
      modifies `startingGeneration
      ensures Value() == Started(old(Value()), g)
    {
      if startingGeneration == Some(g) {
        startingGeneration := None;
      }
    }

    method Join(g: GenId)
      requires g in stopping && g in generations
      modifies `stopping, `survivors
      ensures Value() == old(Value()).(
        stopping := old(stopping) - {g},
        survivors := if generations[g].didExit then old(survivors) else old(survivors) + {g})
    {
      stopping := stopping - {g};
      if !generations[g].didExit {
        survivors := survivors + {g};
      }
    }

    method ContinueClose()
      requires Sound(Value()) && CloseCanGoOn(Value())
      modifies this
      ensures Value() == CloseStep(old(Value()))
    {
      SoundIsSeparate(Value());
      if closing.AwaitingStart? {
        AskToShutDown();
      } else if closing.AwaitingShutdown? {
        RecycleGeneration(closing.generation, Unexpected);
        closing := Joining;
      } else {
        FailAllFindsNothing(Value());
        pending, closing := map[], Finished;
      }
    }
  }

  lemma SoundIsSeparate(w: Worker)
    requires Sound(w)
    ensures Separate(w)
  {
  }

  /** No two requests share a token, and every token has its record. */
  ghost predicate Separate(w: Worker) {
    && (forall id :: id in w.pending ==> w.pending[id].token in w.settlements)
    && (forall a, b :: a in w.pending && b in w.pending && w.pending[a].token == w.pending[b].token ==> a == b)
  }

  ghost function RejectOne(w: Worker, id: RequestId): Worker
    requires id in w.pending && w.pending[id].token in w.settlements
  {
    var t := w.pending[id].token;
    w.(pending := w.pending - {id}, settlements := w.settlements[t := w.settlements[t] + [Rejected]])
  }

  /** `t` waits on `g` under a name that is no longer in `left`. */
  ghost predicate Passed(w: Worker, g: GenId, t: Token, left: set<RequestId>) {
    exists id :: id in w.pending && id !in left && w.pending[id] == Pending(g, t)
  }

  /** The sweep with the names in `left` still to come. */
  ghost function PartlyFailed(w: Worker, g: GenId, left: set<RequestId>): Worker {
    w.(pending := map id | id in w.pending && (id in left || w.pending[id].generation != g) :: w.pending[id],
       settlements := map t | t in w.settlements :: w.settlements[t] + if Passed(w, g, t, left) then [Rejected] else [])
  }

  lemma FailStart(w: Worker, g: GenId)
    ensures PartlyFailed(w, g, w.pending.Keys) == w
  {
    assert PartlyFailed(w, g, w.pending.Keys).pending == w.pending;
    forall t | t in w.settlements
      ensures PartlyFailed(w, g, w.pending.Keys).settlements[t] == w.settlements[t]
    {
      assert !Passed(w, g, t, w.pending.Keys);
    }
    assert PartlyFailed(w, g, w.pending.Keys).settlements == w.settlements;
  }

  lemma FailEnd(w: Worker, g: GenId)
    ensures PartlyFailed(w, g, {}) == FailGeneration(w, g)
  {
    assert PartlyFailed(w, g, {}).pending == FailGeneration(w, g).pending;
    forall t ensures Passed(w, g, t, {}) <==> Waits(w, g, t) {
      if id :| id in w.pending && w.pending[id] == Pending(g, t) { assert id !in {}; }
    }
    assert PartlyFailed(w, g, {}).settlements == FailGeneration(w, g).settlements;
  }

  lemma PassedGrows(w: Worker, g: GenId, left: set<RequestId>, id: RequestId, t: Token)
    requires id in left && id in w.pending && Separate(w)
    ensures Passed(w, g, t, left - {id}) <==> Passed(w, g, t, left) || w.pending[id] == Pending(g, t)
    ensures t == w.pending[id].token ==> !Passed(w, g, t, left)
  {
    if Passed(w, g, t, left) {
      var other :| other in w.pending && other !in left && w.pending[other] == Pending(g, t);
      assert other !in left - {id};
    }
    if w.pending[id] == Pending(g, t) { assert id !in left - {id}; }
  }

  lemma FailStepSettlements(w: Worker, g: GenId, left: set<RequestId>, id: RequestId)
    requires id in left && id in w.pending && Separate(w)
    ensures
      var before, after := PartlyFailed(w, g, left).settlements, PartlyFailed(w, g, left - {id}).settlements;
      var t := w.pending[id].token;
      && t in before
      && after == if w.pending[id].generation == g then before[t := before[t] + [Rejected]] else before
  {
    var before, after := PartlyFailed(w, g, left).settlements, PartlyFailed(w, g, left - {id}).settlements;
    forall t | t in w.settlements
      ensures after[t] == if w.pending[id] == Pending(g, t) then before[t] + [Rejected] else before[t]
    {
      PassedGrows(w, g, left, id, t);
    }
  }

  lemma FailStepPending(w: Worker, g: GenId, left: set<RequestId>, id: RequestId)
    requires id in left && id in w.pending
    ensures
      var before, after := PartlyFailed(w, g, left).pending, PartlyFailed(w, g, left - {id}).pending;
      && id in before && before[id] == w.pending[id]
      && after == if w.pending[id].generation == g then before - {id} else before
  {
  }

  lemma FailStep(w: Worker, g: GenId, left: set<RequestId>, id: RequestId)
    requires id in left && left <= w.pending.Keys && Separate(w)
    ensures
      var here := PartlyFailed(w, g, left);
      && id in here.pending && here.pending[id] == w.pending[id] && here.pending[id].token in here.settlements
      && PartlyFailed(w, g, left - {id}) == if w.pending[id].generation == g then RejectOne(here, id) else here
  {
    FailStepPending(w, g, left, id);
    FailStepSettlements(w, g, left, id);
  }
}
