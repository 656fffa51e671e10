/** A long-lived worker process and its successors (src/asr/worker-process.ts): requests
    tied to the process generation they were written to, retirement, joining and close.
    Events arrive in any order; a request is a token that must be settled once. */
module WorkerModel {

  import opened Common

  type GenId = nat
  type Token = nat
  type RequestId = string

  datatype ExitReason = ByClose | ByIdle | Unexpected

  datatype Generation = Generation(didExit: bool, notified: bool, reason: Option<ExitReason>, idleTimer: bool)

  datatype Pending = Pending(generation: GenId, token: Token)

  datatype Response = Response(id: RequestId, ok: bool, isShutdown: bool)

  datatype Settlement = Resolved(response: Response) | Rejected

  /** Where `close` has got to. */
  datatype Closing =
    | Open
    | AwaitingStart(shutdownId: RequestId)
    | AwaitingShutdown(generation: GenId, token: Token)
    | Joining
    | Finished

  /** `survivors` are the processes that outlived SIGKILL; `settlements` and `notices`
      record what callers and `onExit` were told. */
  datatype Worker = Worker(
    generations: map<GenId, Generation>, child: Option<GenId>, starting: Option<GenId>, stopping: set<GenId>,
    pending: map<RequestId, Pending>, closing: Closing, nextGeneration: GenId, survivors: set<GenId>,
    nextToken: Token, settlements: map<Token, seq<Settlement>>, notices: seq<(GenId, ExitReason)>, idleEnabled: bool)
  {
    predicate Closed() { !closing.Open? }
  }

  function Start(idleEnabled: bool): Worker {
    Worker(map[], None, None, {}, map[], Open, 0, {}, 0, map[], [], idleEnabled)
  }

  // --------------------------------------------------------------------- operations

  function CancelIdle(w: Worker, g: GenId): Worker
    requires g in w.generations
  {
    w.(generations := w.generations[g := w.generations[g].(idleTimer := false)])
  }

  datatype StartReply = ClosedReply | Ready | AwaitStart | AwaitStop | SpawnFailed | Spawned(generation: GenId)

  /** A process is spawned only when none is current, starting or still being joined. */
  function EnsureStarted(w: Worker, spawns: bool): (Worker, StartReply)
    requires w.child.Some? ==> w.child.value in w.generations
  {
    if w.Closed() then (w, ClosedReply)
    else if w.child.Some? then (CancelIdle(w, w.child.value), Ready)
    else if w.starting.Some? then (w, AwaitStart)
    else if w.stopping != {} then (w, AwaitStop)
    else if !spawns then (w, SpawnFailed)
    else
      var g := w.nextGeneration + 1;
      (w.(nextGeneration := g, child := Some(g), starting := Some(g),
          generations := w.generations[g := Generation(false, false, None, false)]), Spawned(g))
  }

  function Refuse(w: Worker): Worker {
    w.(nextToken := w.nextToken + 1, settlements := w.settlements[w.nextToken := [Rejected]])
  }

  function Accept(w: Worker, g: GenId, id: RequestId): Worker {
    w.(nextToken := w.nextToken + 1, settlements := w.settlements[w.nextToken := []],
       pending := w.pending[id := Pending(g, w.nextToken)])
  }

  /** `#send` on the current process. */
  function Write(w: Worker, g: GenId, id: RequestId): Worker
    requires g in w.generations
  {
    if w.generations[g].didExit || w.child != Some(g) then Refuse(w)
    else if id in w.pending then Refuse(CancelIdle(w, g))
    else Accept(CancelIdle(w, g), g, id)
  }

  function Send(w: Worker, id: RequestId): Worker
    requires w.child.Some? ==> w.child.value in w.generations
  {
    if w.Closed() || w.child.None? then Refuse(w) else Write(w, w.child.value, id)
  }

  predicate Waits(w: Worker, g: GenId, t: Token) {
    exists id :: id in w.pending && w.pending[id] == Pending(g, t)
  }

  /** Rejects every request of a generation. */
  function FailGeneration(w: Worker, g: GenId): Worker {
    w.(pending := map id | id in w.pending && w.pending[id].generation != g :: w.pending[id],
       settlements := map t | t in w.settlements ::
         w.settlements[t] + if Waits(w, g, t) then [Rejected] else [])
  }

  /** `onExit` runs once per generation. */
  function Notify(w: Worker, g: GenId): Worker
    requires g in w.generations
  {
    var gen := w.generations[g];
    if gen.notified then w
    else
      var reason := if gen.reason.Some? then gen.reason.value else if w.Closed() then ByClose else Unexpected;
      w.(generations := w.generations[g := gen.(notified := true)], notices := w.notices + [(g, reason)])
  }

  /** Off duty: the first reason given stays. */
  function OffDuty(w: Worker, g: GenId, reason: ExitReason): Worker
    requires g in w.generations
  {
    var gen := w.generations[g];
    w.(generations := w.generations[g := gen.(
         reason := if gen.reason.Some? then gen.reason else Some(reason), idleTimer := false)],
       child := if w.child == Some(g) then None else w.child)
  }

  /** Fences a generation off, fails its requests and starts joining its process. */
  function Recycle(w: Worker, g: GenId, reason: ExitReason): Worker
    requires g in w.generations
  {
    if g in w.stopping then w
    else
      var failed := FailGeneration(OffDuty(w, g, reason), g);
      Notify(failed.(stopping := failed.stopping + {g}), g)
  }

  function Gone(w: Worker, g: GenId): Worker
    requires g in w.generations
  {
    w.(generations := w.generations[g := w.generations[g].(didExit := true, idleTimer := false)],
       child := if w.child == Some(g) then None else w.child,
       starting := if w.starting == Some(g) then None else w.starting)
  }

  /** The process is gone. */
  function ChildClosed(w: Worker, g: GenId): Worker
    requires g in w.generations
  {
    Notify(FailGeneration(Gone(w, g), g), g)
  }

  function Started(w: Worker, g: GenId): Worker {
    if w.starting == Some(g) then w.(starting := None) else w
  }

  /** One line of output of generation `g`; malformed lines are dropped. */
  function Dispatch(w: Worker, g: GenId, line: Option<Response>): Worker
    requires g in w.generations
  {
    if line.None? || line.value.id !in w.pending || w.pending[line.value.id].generation != g then w
    else
      var r := line.value;
      var t := w.pending[r.id].token;
      var answered := w.(
        pending := w.pending - {r.id},
        settlements :=
          if t in w.settlements then w.settlements[t := w.settlements[t] + [Resolved(r)]] else w.settlements);
      if !w.Closed() && (!r.ok || !r.isShutdown) && w.child == Some(g) && w.idleEnabled
      then answered.(generations := w.generations[g := w.generations[g].(idleTimer := true)])
      else answered
  }

  /** The idle timer of `g` goes off. */
  function IdleFires(w: Worker, g: GenId): Worker
    requires g in w.generations
  {
    var fired := CancelIdle(w, g);
    if w.Closed() || w.child != Some(g) || (exists id :: id in w.pending && w.pending[id].generation == g) then fired
    else Recycle(fired, g, ByIdle)
  }

  /** The first half of `close`, once a start in progress has settled. */
  function CloseCurrent(w: Worker): Worker
    requires w.closing.AwaitingStart? && (w.child.Some? ==> w.child.value in w.generations)
  {
    if w.child.None? then w.(closing := Joining)
    else
      var g := w.child.value;
      var marked := w.(
        generations := w.generations[g := w.generations[g].(reason := Some(ByClose), idleTimer := false)]);
      var asked := Write(FailGeneration(marked, g), g, w.closing.shutdownId);
      asked.(closing := AwaitingShutdown(g, w.nextToken))
  }

  function FailAll(w: Worker): Worker {
    w.(pending := map[],
       settlements := map t | t in w.settlements ::
         w.settlements[t] + if exists id :: id in w.pending && w.pending[id].token == t then [Rejected] else [])
  }

  // ------------------------------------------------------------------------- events

  datatype Event =
    | Ensure(spawns: bool)
    | Request(id: RequestId)
    | Spawn(generation: GenId)
    | ProcessError(generation: GenId)
    | Exit(generation: GenId)
    | Line(generation: GenId, line: Option<Response>)
    | Timeout(id: RequestId)
    | WriteError(id: RequestId, generation: GenId)
    | IdleTimer(generation: GenId)
    | Joined(generation: GenId)
    | Close(shutdownId: RequestId)
    | CloseGoesOn

  /** Events the environment can produce: of known processes, timers that are running. */
  predicate Enabled(w: Worker, e: Event) {
    match e
    case Spawn(g) => g in w.generations
    case ProcessError(g) => g in w.generations
    case Exit(g) => g in w.generations && !w.generations[g].didExit
    case Line(g, _) => g in w.generations
    case Timeout(id) => id in w.pending
    case IdleTimer(g) => g in w.generations && w.generations[g].idleTimer
    case Joined(g) => g in w.stopping
    case CloseGoesOn => CloseCanGoOn(w)
    case _ => true
  }

  /** What the next step of `close` awaits has happened. */
  predicate CloseCanGoOn(w: Worker) {
    match w.closing
    case AwaitingStart(_) => w.starting.None?
    case AwaitingShutdown(_, t) => t in w.settlements && w.settlements[t] != []
    case Joining => true
    case _ => false
  }

  function Step(w: Worker, e: Event): Worker
    requires Known(w) && Enabled(w, e)
  {
    match e
    case Ensure(spawns) => EnsureStarted(w, spawns).0
    case Request(id) => Send(w, id)
    case Spawn(g) => Started(w, g)
    case ProcessError(g) => Recycle(Started(w, g), g, Unexpected)
    case Exit(g) => ChildClosed(w, g)
    case Line(g, line) => Dispatch(w, g, line)
    case Timeout(id) => Recycle(w, w.pending[id].generation, Unexpected)
    case WriteError(id, g) =>
      if id in w.pending && w.pending[id].generation == g then Recycle(w, g, Unexpected) else w
    case IdleTimer(g) => IdleFires(w, g)
    case Joined(g) =>
      w.(stopping := w.stopping - {g},
         survivors := if w.generations[g].didExit then w.survivors else w.survivors + {g})
    case Close(id) => if w.Closed() then w else w.(closing := AwaitingStart(id))
    case CloseGoesOn => CloseStep(w)
  }

  function CloseStep(w: Worker): Worker
    requires Known(w) && CloseCanGoOn(w)
  {
    match w.closing
    case AwaitingStart(_) => CloseCurrent(w)
    case AwaitingShutdown(g, _) => Recycle(w, g, Unexpected).(closing := Joining)
    case _ => FailAll(w).(closing := Finished)
  }

  /** Names refer to generations that exist. */
  predicate Known(w: Worker) {
    && (w.child.Some? ==> w.child.value in w.generations)
    && (forall g :: g in w.stopping ==> g in w.generations)
    && (forall id :: id in w.pending ==> w.pending[id].generation in w.generations)
    && (w.closing.AwaitingShutdown? ==> w.closing.generation in w.generations)
  }
}
