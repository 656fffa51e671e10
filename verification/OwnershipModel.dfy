/** Exclusive ownership of the database by one daemon or one maintenance operation
    (src/cli/daemon-ownership.ts): the compare-and-swap transactions, and the claim
    protocol as steps of several processes, with every probe of another process a
    step of its own. */
module OwnershipModel {

  import opened Common
  import opened Processes
  import opened JobModel

  // ------------------------------------------------------------------ transactions

  /** The PID file beside the database; records from old releases lack fields. */
  datatype Mirror = Mirror(pid: Pid, startedAt: Option<nat>, tag: Option<BirthTag>)

  function MirrorOf(o: Ownership): Mirror { Mirror(o.pid, Some(o.startedAt), Some(o.tag)) }

  datatype Heartbeat = Heartbeat(pid: Pid, startedAt: nat)

  datatype Db = Db(row: Option<Ownership>, mirror: Option<Mirror>, heartbeat: Option<Heartbeat>, jobs: Table)

  datatype Acquisition = Acquired | Contended | Denied

  predicate HasLeases(t: Table, owner: JobOwner) {
    exists id :: id in t && OwnedBy(t[id], owner)
  }

  function Reclaim(t: Table, owner: Option<JobOwner>, now: int): Table {
    if owner.Some? then RecoverAfterDeath(t, owner.value, now) else t
  }

  /** The swap shared by insert (`expected` is `None`) and replace: the row and the
      observed mirror must be unchanged, and a blocked predecessor must hold no lease. */
  function Swap(
    db: Db, observed: Option<Mirror>, expected: Option<Ownership>, identity: Ownership,
    reclaimed: Option<JobOwner>, blocked: Option<JobOwner>, now: int): (Acquisition, Db)
  {
    if db.row != expected then (Contended, db)
    else if blocked.Some? && HasLeases(db.jobs, blocked.value) then (Denied, db)
    else if db.mirror != observed then (Contended, db)
    else (Acquired, db.(row := Some(identity), mirror := None, jobs := Reclaim(db.jobs, reclaimed, now)))
  }

  function Delete(db: Db, expected: Ownership): Db {
    if db.row != Some(expected) then db
    else db.(row := None, mirror := if db.mirror == Some(MirrorOf(expected)) then None else db.mirror)
  }

  // ------------------------------------------------------------------ the claim

  datatype Stage =
    | Start
    | Read(seen: Option<Ownership>)
    | OwnerDead(seen: Option<Ownership>)
    | MirrorRead(seen: Option<Ownership>, mirror: Option<Mirror>)
    | MirrorDead(seen: Option<Ownership>, mirror: Option<Mirror>)
    | Ready(seen: Option<Ownership>, mirror: Option<Mirror>)
    | Holding
    | Finished

  datatype Claim = Claim(me: Ownership, stage: Stage)

  /** `alive` maps the pid of every running process to its birth marker. `born` and
      `used` are every process and every ownership record there has ever been, and
      `replaced` the records that were taken over. */
  datatype World = World(
    alive: map<Pid, nat>, born: set<Proc>, used: set<Ownership>, replaced: set<Ownership>,
    claims: map<Proc, Claim>, db: Db)

  predicate Alive(w: World, p: Proc) { p.pid in w.alive && w.alive[p.pid] == p.birth }

  /** What inspecting the recorded process can conclude. A daemon's pid must be gone;
      a maintenance holder is also gone when its pid now carries another known birth
      marker. An unreadable marker proves nothing. */
  predicate ProvenDead(w: World, o: Ownership, markerKnown: bool) {
    || o.pid !in w.alive
    || (o.IsMaintenance() && markerKnown && w.alive[o.pid] != o.tag.birth)
  }

  predicate UnexpiredLease(t: Table, now: int) {
    exists id :: id in t && t[id].state.Leased? && t[id].state.expiresAt > now
  }

  /** Leases of a dead predecessor: a daemon takes them back, maintenance refuses. */
  function Predecessor(seen: Option<Ownership>, mirror: Option<Mirror>): Option<JobOwner> {
    match seen
    case None => if mirror.Some? then Some(LegacyOwner(mirror.value.pid)) else None
    case Some(o) => if o.IsMaintenance() then None else Some(DaemonOwner(o))
  }

  function Commit(w: World, c: Claim, now: int): (Acquisition, Db)
    requires c.stage.Ready?
  {
    var predecessor := Predecessor(c.stage.seen, c.stage.mirror);
    if c.me.IsMaintenance() then Swap(w.db, c.stage.mirror, c.stage.seen, c.me, None, predecessor, now)
    else Swap(w.db, c.stage.mirror, c.stage.seen, c.me, predecessor, None, now)
  }

  datatype Event =
    | Spawn(p: Proc)
    | Die(pid: Pid)
    | Begin(p: Proc, me: Ownership)
    | ReadRow(p: Proc)
    | ProbeOwner(p: Proc, markerKnown: bool)
    | ReadMirror(p: Proc)
    | ProbeMirror(p: Proc)
    | ProbeHeartbeat(p: Proc, now: int)
    | TryCommit(p: Proc, now: int)
    | PublishMirror(p: Proc)
    | Release(p: Proc)
    | GiveUp(p: Proc)
    | ClearDead(target: Ownership)
    | LeaseJob(p: Proc, id: JobId, nonce: nat, until: int)
    | OtherJobWork(table: Table)

  predicate At(w: World, p: Proc) { Alive(w, p) && p in w.claims }

  ghost predicate Enabled(w: World, e: Event) {
    match e
    case Spawn(p) => p.pid !in w.alive && p !in w.born
    case Die(pid) => pid in w.alive
    case Begin(p, me) =>
      Alive(w, p) && (p in w.claims ==> w.claims[p].stage == Finished) && me.Holder() == p && me !in w.used
    case ReadRow(p) => At(w, p) && w.claims[p].stage == Start
    case ProbeOwner(p, _) => At(w, p) && w.claims[p].stage.Read? && w.claims[p].stage.seen.Some?
    case ReadMirror(p) =>
      At(w, p) && (w.claims[p].stage.OwnerDead? || w.claims[p].stage == Read(None))
    case ProbeMirror(p) => At(w, p) && w.claims[p].stage.MirrorRead?
    case ProbeHeartbeat(p, _) => At(w, p) && w.claims[p].stage.MirrorDead?
    case TryCommit(p, _) => At(w, p) && w.claims[p].stage.Ready?
    case PublishMirror(p) => At(w, p) && w.claims[p].stage == Holding && !w.claims[p].me.IsMaintenance()
    case Release(p) => At(w, p) && w.claims[p].stage == Holding
    case GiveUp(p) => At(w, p) && w.claims[p].stage != Holding
    case ClearDead(target) => target in w.used && exists known: bool :: ProvenDead(w, target, known)
    case LeaseJob(p, id, _, _) =>
      At(w, p) && w.claims[p].stage == Holding && !w.claims[p].me.IsMaintenance()
      && id in w.db.jobs && w.db.jobs[id].state == Pending
    case OtherJobWork(table) =>
      forall id :: id in table && table[id].state.Leased? && table[id].state.token.owner.DaemonOwner? ==>
        Holds(w.db.jobs, id, table[id].state.token)
  }

  function Move(w: World, p: Proc, stage: Stage): World
    requires p in w.claims
  {
    w.(claims := w.claims[p := w.claims[p].(stage := stage)])
  }

  ghost function Step(w: World, e: Event): World
    requires Enabled(w, e)
  {
    match e
    case Spawn(p) => w.(alive := w.alive[p.pid := p.birth], born := w.born + {p})
    case Die(pid) => w.(alive := w.alive - {pid})
    case Begin(p, me) => w.(claims := w.claims[p := Claim(me, Start)], used := w.used + {me})
    case ReadRow(p) => Move(w, p, Read(w.db.row))
    case ProbeOwner(p, known) =>
      var seen := w.claims[p].stage.seen;
      Move(w, p, if ProvenDead(w, seen.value, known) then OwnerDead(seen) else Finished)
    case ReadMirror(p) => Move(w, p, MirrorRead(w.claims[p].stage.seen, w.db.mirror))
    case ProbeMirror(p) =>
      var seen, mirror := w.claims[p].stage.seen, w.claims[p].stage.mirror;
      var same := seen.Some? && mirror == Some(MirrorOf(seen.value));
      Move(w, p, if mirror.Some? && !same && mirror.value.pid in w.alive then Finished else MirrorDead(seen, mirror))
    case ProbeHeartbeat(p, now) =>
      var seen, mirror, beat := w.claims[p].stage.seen, w.claims[p].stage.mirror, w.db.heartbeat;
      var foreign := beat.Some? && beat.value.pid in w.alive
        && (seen.None? || beat.value.pid != seen.value.pid || beat.value.startedAt != seen.value.startedAt);
      var refused :=
        if seen.Some? then foreign
        else mirror.None? && (foreign || UnexpiredLease(w.db.jobs, now));
      Move(w, p, if refused then Finished else Ready(seen, mirror))
    case TryCommit(p, now) =>
      var (result, db) := Commit(w, w.claims[p], now);
      var seen := w.claims[p].stage.seen;
      match result {
        case Acquired =>
          Move(w, p, Holding).(db := db, replaced := if seen.Some? then w.replaced + {seen.value} else w.replaced)
        case Contended => Move(w, p, Start)
        case Denied => Move(w, p, Finished)
      }
    case PublishMirror(p) =>
      var me := w.claims[p].me;
      if w.db.row == Some(me) && w.db.mirror.None? then w.(db := w.db.(mirror := Some(MirrorOf(me))))
      else Move(w, p, Finished).(db := Delete(w.db, me))
    case Release(p) => Move(w, p, Finished).(db := Delete(w.db, w.claims[p].me))
    case GiveUp(p) => Move(w, p, Finished)
    case ClearDead(target) => w.(db := Delete(w.db, target))
    case LeaseJob(p, id, nonce, until) =>
      w.(db := w.db.(jobs := JobModel.Claim(w.db.jobs, id, Token(DaemonOwner(w.claims[p].me), nonce), until)))
    case OtherJobWork(table) => w.(db := w.db.(jobs := table))
  }

  /** Nobody has claimed anything; a mirror, heartbeat and jobs of old releases may remain. */
  ghost predicate Initial(w: World) {
    && w.db.row.None? && w.claims == map[] && w.used == {} && w.replaced == {}
    && (forall pid :: pid in w.alive ==> Proc(pid, w.alive[pid]) in w.born)
    && (forall id :: id in w.db.jobs && w.db.jobs[id].state.Leased? ==> !w.db.jobs[id].state.token.owner.DaemonOwner?)
  }

  ghost predicate Reaches(w: World, events: seq<Event>, w': World)
    decreases |events|
  {
    if events == [] then w' == w
    else Enabled(w, events[0]) && Reaches(Step(w, events[0]), events[1..], w')
  }
}
