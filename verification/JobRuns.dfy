/** What holds over every run of the job queue: leases are fenced by their tokens,
    finished work stays finished, and the attempt counter is an exact account. */
module JobRuns {

  import opened Common
  import opened Processes
  import opened JobModel

  datatype Event =
    | Enqueued(id: JobId, kind: JobKind, key: string, payload: string, maxAttempts: int, runAfter: int, now: int)
    | Claimed(id: JobId, kinds: set<JobKind>, token: Token, leaseUntil: int, now: int)
    | Renewed(id: JobId, token: Token, leaseUntil: int)
    | Completed(id: JobId, token: Token, now: int)
    | Failed(id: JobId, token: Token, now: int)
    | Swept(now: int)
    | Reclaimed(owner: JobOwner, now: int)
    | Interrupted(id: JobId, token: Token, now: int)
    | Retried(id: JobId, language: bool, prepared: bool, payload: string, now: int)

  /** What a job has been through since it was enqueued or last revived. */
  datatype Life = Life(retries: nat, sweeps: nat)

  /** `used` holds every token and `born` every id ever generated; both are random
      identifiers in the source and never repeat. */
  datatype Run = Run(table: Table, used: set<Token>, born: set<JobId>, lives: map<JobId, Life>)

  const EMPTY := Run(map[], {}, {}, map[])

  predicate Enabled(r: Run, e: Event) {
    match e
    case Enqueued(id, _, _, _, _, _, _) => id !in r.born
    case Claimed(id, kinds, token, _, now) => id in r.table && Runnable(r.table[id], kinds, now) && token !in r.used
    case _ => true
  }

  function Step(r: Run, e: Event): Run
    requires Enabled(r, e)
  {
    match e
    case Enqueued(id, kind, key, payload, maxAttempts, runAfter, now) =>
      Run(Enqueue(r.table, id, kind, key, payload, maxAttempts, runAfter, now), r.used, r.born + {id},
          r.lives[id := Life(0, 0)])
    case Claimed(id, _, token, leaseUntil, _) =>
      r.(table := Claim(r.table, id, token, leaseUntil), used := r.used + {token})
    case Renewed(id, token, leaseUntil) => r.(table := Renew(r.table, id, token, leaseUntil))
    case Completed(id, token, now) => r.(table := Complete(r.table, id, token, now))
    case Failed(id, token, now) =>
      r.(table := Fail(r.table, id, token, now),
         lives := if FailOutcome(r.table, id, token, now) == Retry
                  then r.lives[id := LifeOf(r, id).(retries := LifeOf(r, id).retries + 1)] else r.lives)
    case Swept(now) =>
      r.(table := RecoverStale(r.table, now),
         lives := map id | id in r.lives ::
           if id in r.table && r.table[id].state.Leased? && r.table[id].state.expiresAt <= now
           then r.lives[id].(sweeps := r.lives[id].sweeps + 1) else r.lives[id])
    case Reclaimed(owner, now) => r.(table := RecoverAfterDeath(r.table, owner, now))
    case Interrupted(id, token, now) => r.(table := ReleaseInterrupted(r.table, id, token, now))
    case Retried(id, language, prepared, payload, now) =>
      r.(table := RetryDead(r.table, id, language, prepared, payload, now),
         lives := if RetryOutcomeOf(r.table, id, language, prepared) == Requeued
                  then r.lives[id := Life(0, 0)] else r.lives)
  }

  function LifeOf(r: Run, id: JobId): Life {
    if id in r.lives then r.lives[id] else Life(0, 0)
  }

  /** `r'` is reachable from `r` by `events`. */
  ghost predicate Reaches(r: Run, events: seq<Event>, r': Run)
    decreases |events|
  {
    if events == [] then r' == r
    else Enabled(r, events[0]) && Reaches(Step(r, events[0]), events[1..], r')
  }

  // --------------------------------------------------------------------- invariant

  ghost predicate Sound(r: Run) {
    && r.table.Keys <= r.born && r.table.Keys <= r.lives.Keys
    && Fenced(r.table, r.used) && UniqueKeys(r.table)
    && forall id :: id in r.table ==> Accounted(r.table[id], LifeOf(r, id))
  }

  /** A token that is current was generated, and is current on one row only. */
  ghost predicate Fenced(t: Table, used: set<Token>) {
    && (forall id :: id in t && t[id].state.Leased? ==> t[id].state.token in used)
    && (forall i, j {:trigger t[i].state, t[j].state} ::
          i in t && j in t && t[i].state.Leased? && t[j].state.Leased? && t[i].state.token == t[j].state.token
          ==> i == j)
  }

  ghost predicate UniqueKeys(t: Table) {
    forall i, j {:trigger t[i].key, t[j].key} :: i in t && j in t && t[i].key == t[j].key ==> i == j
  }

  /** Attempts are the retries, the expired claims and the claim in progress; only
      the final failure of a life is counted by death itself. */
  predicate Accounted(job: Job, life: Life) {
    && (life.retries > 0 ==> life.retries < job.maxAttempts)
    && match job.state
       case Pending => job.attempts == life.retries + life.sweeps
       case Leased(_, _) => job.attempts == life.retries + life.sweeps + 1
       case Done => job.attempts == life.retries + life.sweeps + 1
       case Dead => job.attempts == life.retries + life.sweeps + 1 && job.attempts >= job.maxAttempts
  }

  /** Rows only ever gain a lease under a token that was never used before. */
  ghost predicate Narrows(t: Table, t': Table) {
    && t'.Keys == t.Keys
    && (forall id :: id in t ==> t'[id].key == t[id].key && t'[id].maxAttempts == t[id].maxAttempts)
    && (forall id :: id in t && t'[id].state.Leased? ==> Holds(t, id, t'[id].state.token))
  }

  lemma NarrowsSound(t: Table, t': Table, used: set<Token>)
    requires Narrows(t, t') && Fenced(t, used) && UniqueKeys(t)
    ensures Fenced(t', used) && UniqueKeys(t')
  {
  }

  lemma StepNarrows(r: Run, e: Event)
    requires Enabled(r, e) && !e.Enqueued? && !e.Claimed?
    ensures Narrows(r.table, Step(r, e).table) && Step(r, e).used == r.used && Step(r, e).born == r.born
  {
  }

  lemma StepAccounted(r: Run, e: Event, id: JobId)
    requires Sound(r) && Enabled(r, e) && id in Step(r, e).table
    ensures Accounted(Step(r, e).table[id], LifeOf(Step(r, e), id))
  {
    assert id in r.table ==> Accounted(r.table[id], LifeOf(r, id));
  }

  lemma StepSound(r: Run, e: Event)
    requires Sound(r) && Enabled(r, e)
    ensures Sound(Step(r, e))
  {
    if !e.Enqueued? && !e.Claimed? {
      StepNarrows(r, e);
      NarrowsSound(r.table, Step(r, e).table, r.used);
    }
    forall id | id in Step(r, e).table ensures Accounted(Step(r, e).table[id], LifeOf(Step(r, e), id)) {
      StepAccounted(r, e, id);
    }
  }

  lemma {:induction false} EveryRunSound(r: Run, events: seq<Event>, r': Run)
    requires Sound(r) && Reaches(r, events, r')
    ensures Sound(r')
    decreases |events|
  {
    if events != [] {
      StepSound(r, events[0]);
      EveryRunSound(Step(r, events[0]), events[1..], r');
    }
  }

  /** A queue starts empty, so all of this holds of every queue there ever is. */
  lemma EveryQueueSound(events: seq<Event>, r: Run)
    requires Reaches(EMPTY, events, r)
    ensures Sound(r)
  {
    EveryRunSound(EMPTY, events, r);
  }

  // ----------------------------------------------------------------------- fencing

  lemma StepKeepsLost(r: Run, e: Event, id: JobId, token: Token)
    requires Sound(r) && Enabled(r, e) && token in r.used && !Holds(r.table, id, token)
    ensures token in Step(r, e).used && !Holds(Step(r, e).table, id, token)
  {
    if !e.Enqueued? && !e.Claimed? { StepNarrows(r, e); }
  }

  /** A token that has lost its row can never again renew, pass the lease check,
      complete, fail or release it, whatever happens later. */
  lemma {:induction false} LostTokenStaysLost(r: Run, events: seq<Event>, r': Run, id: JobId, token: Token)
    requires Sound(r) && token in r.used && !Holds(r.table, id, token)
    requires Reaches(r, events, r')
    ensures !Holds(r'.table, id, token)
    ensures forall now :: !AssertLease(r'.table, id, token, now)
    ensures forall until :: Renew(r'.table, id, token, until) == r'.table
    ensures forall now :: Complete(r'.table, id, token, now) == r'.table
    ensures forall now :: Fail(r'.table, id, token, now) == r'.table && FailOutcome(r'.table, id, token, now) == Lost
    ensures forall now :: ReleaseInterrupted(r'.table, id, token, now) == r'.table
    decreases |events|
  {
    if events != [] {
      StepSound(r, events[0]);
      StepKeepsLost(r, events[0], id, token);
      LostTokenStaysLost(Step(r, events[0]), events[1..], r', id, token);
    }
  }

  /** Finished work stays finished. */
  lemma {:induction false} DoneIsFinal(r: Run, events: seq<Event>, r': Run, id: JobId)
    requires Sound(r) && id in r.table && r.table[id].state == Done
    requires Reaches(r, events, r')
    ensures id in r'.table && r'.table[id] == r.table[id]
    decreases |events|
  {
    if events != [] {
      StepSound(r, events[0]);
      DoneIsFinal(Step(r, events[0]), events[1..], r', id);
    }
  }

  // -------------------------------------------------------------------- retry budget

  /** Failures of `id` along the run that were answered with another try. */
  ghost function RetriesOf(r: Run, events: seq<Event>, id: JobId): nat
    decreases |events|
  {
    if events == [] || !Enabled(r, events[0]) then 0
    else
      var e := events[0];
      (if e.Failed? && e.id == id && FailOutcome(r.table, id, e.token, e.now) == Retry then 1 else 0)
      + RetriesOf(Step(r, e), events[1..], id)
  }

  ghost predicate NeverRevived(events: seq<Event>, id: JobId) {
    forall k :: 0 <= k < |events| ==> !(events[k].Retried? && events[k].id == id)
  }

  lemma {:induction false} RetriesAreCounted(r: Run, events: seq<Event>, r': Run, id: JobId)
    requires Sound(r) && id in r.table && Reaches(r, events, r') && NeverRevived(events, id)
    ensures Sound(r') && id in r'.table && r'.table[id].maxAttempts == r.table[id].maxAttempts
    ensures LifeOf(r', id).retries == LifeOf(r, id).retries + RetriesOf(r, events, id)
    decreases |events|
  {
    if events != [] {
      StepSound(r, events[0]);
      assert id in Step(r, events[0]).table;
      assert NeverRevived(events[1..], id);
      RetriesAreCounted(Step(r, events[0]), events[1..], r', id);
    }
  }

  /** Between two revivals at most `maxAttempts - 1` failures are retried. */
  lemma RetryBudget(r: Run, events: seq<Event>, r': Run, id: JobId)
    requires Sound(r) && id in r.table && Reaches(r, events, r') && NeverRevived(events, id)
    ensures RetriesOf(r, events, id) <= Max(0, r.table[id].maxAttempts - 1)
  {
    RetriesAreCounted(r, events, r', id);
    assert Accounted(r'.table[id], LifeOf(r', id));
  }

  /** A job dies only by failing with its attempts used up: by retries, by claims
      that expired, and by this last claim. */
  lemma OnlyFailureKills(r: Run, e: Event, id: JobId)
    requires Sound(r) && Enabled(r, e)
    requires id in Step(r, e).table && Step(r, e).table[id].state == Dead
    requires id in r.table ==> r.table[id].state != Dead
    ensures e.Failed? && e.id == id && FailOutcome(r.table, id, e.token, e.now) == DeadNow
    ensures LifeOf(r, id).retries + LifeOf(r, id).sweeps + 1 >= r.table[id].maxAttempts
  {
    assert id in r.table ==> Accounted(r.table[id], LifeOf(r, id));
  }

  /** Undoing a claim, because its daemon is proven dead or is shutting down, gives
      back exactly the attempt that the claim took. */
  lemma RefundUndoesClaim(r: Run, id: JobId, token: Token, leaseUntil: int, now: int)
    requires Sound(r) && id in r.table && r.table[id].state == Pending && leaseUntil > now
    ensures
      var before := r.table[id].(runAfter := now);
      var claimed := Claim(r.table, id, token, leaseUntil);
      && ReleaseInterrupted(claimed, id, token, now)[id] == before
      && RecoverAfterDeath(claimed, token.owner, now)[id] == before
  {
    assert Accounted(r.table[id], LifeOf(r, id));
  }

  // ------------------------------------------------------------------ the job tick

  function RenewEach(t: Table, active: seq<(JobId, Token)>, leaseUntil: int): Table {
    if active == [] then t
    else
      var (id, token) := active[|active| - 1];
      Renew(RenewEach(t, active[..|active| - 1], leaseUntil), id, token, leaseUntil)
  }

  lemma {:induction false} RenewEachEffect(
    t: Table, active: seq<(JobId, Token)>, leaseUntil: int, id: JobId, token: Token)
    ensures Holds(RenewEach(t, active, leaseUntil), id, token) <==> Holds(t, id, token)
    ensures Holds(t, id, token) && (id, token) in active ==>
      RenewEach(t, active, leaseUntil)[id].state.expiresAt == leaseUntil
  {
    if active != [] {
      RenewEachEffect(t, active[..|active| - 1], leaseUntil, id, token);
      assert active == active[..|active| - 1] + [active[|active| - 1]];
    }
  }

  /** Renewing first means the sweep of a daemon's own tick cannot take back a job it
      is still running, however long the machine slept before the tick. */
  lemma TickKeepsOwnJobs(t: Table, active: seq<(JobId, Token)>, leaseUntil: int, now: int, id: JobId, token: Token)
    requires (id, token) in active && Holds(t, id, token) && now < leaseUntil
    ensures var t' := RecoverStale(RenewEach(t, active, leaseUntil), now);
      Holds(t', id, token) && AssertLease(t', id, token, now)
  {
    RenewEachEffect(t, active, leaseUntil, id, token);
  }
}
