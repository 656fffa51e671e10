/** The job queue over its durable table (src/jobs/queue.ts), each method proved to do
    what `JobModel` specifies, and the daemon's job tick (src/cli/daemon.ts). */
module JobQueueClass {

  import opened Common
  import opened Processes
  import opened JobModel
  import opened JobRuns

  datatype ClaimedJob = ClaimedJob(
    id: JobId, token: Token, kind: JobKind, payload: string, attempts: int, maxAttempts: int)

  class JobQueue {
    const owner: JobOwner
    var jobs: Table

    constructor (owner: JobOwner, jobs: Table)
      ensures this.owner == owner && this.jobs == jobs
    {
      this.owner := owner;
      this.jobs := jobs;
    }

    /** `newId` is a freshly generated id. */
    method Enqueue(newId: JobId, kind: JobKind, key: string, payload: string, maxAttempts: int, runAfter: int, now: int)
      returns (id: Option<JobId>)
      requires newId !in jobs
      modifies this
      ensures jobs == JobModel.Enqueue(old(jobs), newId, kind, key, payload, maxAttempts, runAfter, now)
      ensures id == if KeyTaken(old(jobs), key) then None else Some(newId)
    {
      var taken := exists other :: other in jobs && jobs[other].key == key;
      if taken { return None; }
      jobs := jobs[newId := Job(kind, key, payload, Pending, 0, maxAttempts, runAfter, now)];
      id := Some(newId);
    }

    /** Leases the next runnable job, if there is one. */
    method Claim(kinds: set<JobKind>, nonce: nat, leaseMs: int, now: int) returns (claimed: Option<ClaimedJob>)
      modifies this
      ensures claimed.None? ==> jobs == old(jobs) && forall id :: id in jobs ==> !Runnable(jobs[id], kinds, now)
      ensures claimed.Some? ==>
        var c := claimed.value;
        && IsNext(old(jobs), c.id, kinds, now) && c.token == Token(owner, nonce)
        && jobs == JobModel.Claim(old(jobs), c.id, c.token, now + leaseMs)
        && c.attempts == old(jobs)[c.id].attempts + 1 && c.kind == old(jobs)[c.id].kind
        && c.payload == old(jobs)[c.id].payload && c.maxAttempts == old(jobs)[c.id].maxAttempts
    {
      var best: Option<JobId> := None;
      var rest := jobs.Keys;
      while rest != {}
        invariant rest <= jobs.Keys
        invariant best.None? ==> forall id :: id in jobs && id !in rest ==> !Runnable(jobs[id], kinds, now)
        invariant best.Some? ==>
          && best.value in jobs && Runnable(jobs[best.value], kinds, now)
          && forall id :: id in jobs && id !in rest && Runnable(jobs[id], kinds, now) ==>
            NoLater(jobs[best.value], jobs[id])
        decreases rest
      {
        var id :| id in rest;
        rest := rest - {id};
        if Runnable(jobs[id], kinds, now) && (best.None? || !NoLater(jobs[best.value], jobs[id])) {
          best := Some(id);
        }
      }
      if best.None? { return None; }
      var row, token := jobs[best.value], Token(owner, nonce);
      jobs := jobs[best.value := row.(state := Leased(token, now + leaseMs), attempts := row.attempts + 1)];
      claimed := Some(ClaimedJob(best.value, token, row.kind, row.payload, row.attempts + 1, row.maxAttempts));
    }

    method Renew(id: JobId, token: Token, leaseMs: int, now: int) returns (renewed: bool)
      modifies this
      ensures jobs == JobModel.Renew(old(jobs), id, token, now + leaseMs)
      ensures renewed <==> Holds(old(jobs), id, token)
    {
      renewed := Holds(jobs, id, token);
      if renewed { jobs := jobs[id := jobs[id].(state := Leased(token, now + leaseMs))]; }
    }

    method Complete(id: JobId, token: Token, now: int) returns (completed: bool)
      modifies this
      ensures jobs == JobModel.Complete(old(jobs), id, token, now)
      ensures completed <==> AssertLease(old(jobs), id, token, now)
    {
      completed := AssertLease(jobs, id, token, now);
      if completed { jobs := jobs[id := jobs[id].(state := Done)]; }
    }

    method Fail(id: JobId, token: Token, now: int) returns (outcome: FailureOutcome)
      modifies this
      ensures jobs == JobModel.Fail(old(jobs), id, token, now)
      ensures outcome == FailOutcome(old(jobs), id, token, now)
    {
      if !AssertLease(jobs, id, token, now) { return Lost; }
      var row := jobs[id];
      if row.attempts >= row.maxAttempts {
        jobs := jobs[id := row.(state := Dead, runAfter := now)];
        return DeadNow;
      }
      jobs := jobs[id := row.(state := Pending, runAfter := now + BackoffMs(Max(0, row.attempts)))];
      return Retry;
    }

    method RecoverStaleLeases(now: int)
      modifies this
      ensures jobs == RecoverStale(old(jobs), now)
    {
      jobs := map id | id in jobs ::
        if jobs[id].state.Leased? && jobs[id].state.expiresAt <= now then jobs[id].(state := Pending) else jobs[id];
    }

    method RecoverLeasesAfterProvenDaemonDeath(deadOwner: JobOwner, now: int)
      modifies this
      ensures jobs == RecoverAfterDeath(old(jobs), deadOwner, now)
    {
      jobs := map id | id in jobs :: if OwnedBy(jobs[id], deadOwner) then Refunded(jobs[id], now) else jobs[id];
    }

    /** The start of every job tick: renew what this daemon is running, sweep expired
        leases, claim the next job. None of its own running jobs is lost. */
    method Tick(active: seq<(JobId, Token)>, kinds: set<JobKind>, nonce: nat, leaseMs: int, now: int)
      returns (claimed: Option<ClaimedJob>)
      requires leaseMs > 0
      modifies this
      ensures forall id, token :: (id, token) in active && Holds(old(jobs), id, token) ==>
        AssertLease(jobs, id, token, now)
      ensures claimed.Some? ==>
        IsNext(RecoverStale(RenewEach(old(jobs), active, now + leaseMs), now), claimed.value.id, kinds, now)
    {
      for i := 0 to |active|
        invariant jobs == RenewEach(old(jobs), active[..i], now + leaseMs)
      {
        assert active[..i + 1][..i] == active[..i];
        var _ := Renew(active[i].0, active[i].1, leaseMs, now);
      }
      assert active[..|active|] == active;
      RecoverStaleLeases(now);
      forall id, token | (id, token) in active && Holds(old(jobs), id, token)
        ensures AssertLease(jobs, id, token, now)
      {
        TickKeepsOwnJobs(old(jobs), active, now + leaseMs, now, id, token);
      }
      claimed := Claim(kinds, nonce, leaseMs, now);
    }
  }
}
