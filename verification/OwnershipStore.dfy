/** The ownership row, its PID mirror and the job queue they guard, with the
    transactions of src/cli/daemon-ownership.ts as methods. */
module OwnershipStoreClass {

  import opened Common
  import opened Processes
  import opened JobModel
  import opened JobQueueClass
  import opened OwnershipModel

  class OwnershipStore {
    var row: Option<Ownership>
    var mirror: Option<Mirror>
    var heartbeat: Option<Heartbeat>
    const queue: JobQueue

    constructor (queue: JobQueue)
      ensures this.queue == queue && row.None? && mirror.None? && heartbeat.None?
    {
      this.queue := queue;
      row, mirror, heartbeat := None, None, None;
    }

    ghost function View(): Db
      reads this, queue
    {
      Db(row, mirror, heartbeat, queue.jobs)
    }

    method InsertDaemonOwnership(
      observedMirror: Option<Mirror>, identity: Ownership,
      reclaimedJobOwner: Option<JobOwner>, blockedJobOwner: Option<JobOwner>, now: int) returns (result: Acquisition)
      modifies this, queue
      ensures (result, View())
        == Swap(old(View()), observedMirror, None, identity, reclaimedJobOwner, blockedJobOwner, now)
    {
      if row.Some? { return Contended; }
      result := TakeRow(observedMirror, identity, reclaimedJobOwner, blockedJobOwner, now);
    }

    method ReplaceDaemonOwnership(
      observedMirror: Option<Mirror>, expected: Ownership, replacement: Ownership,
      reclaimedJobOwner: Option<JobOwner>, blockedJobOwner: Option<JobOwner>, now: int) returns (result: Acquisition)
      modifies this, queue
      ensures (result, View())
        == Swap(old(View()), observedMirror, Some(expected), replacement, reclaimedJobOwner, blockedJobOwner, now)
    {
      if row != Some(expected) { return Contended; }
      result := TakeRow(observedMirror, replacement, reclaimedJobOwner, blockedJobOwner, now);
    }

    /** The part of both transactions that follows the check of the row. */
    method TakeRow(
      observedMirror: Option<Mirror>, identity: Ownership,
      reclaimedJobOwner: Option<JobOwner>, blockedJobOwner: Option<JobOwner>, now: int) returns (result: Acquisition)
      modifies this, queue
      ensures (result, View())
        == Swap(old(View()), observedMirror, old(row), identity, reclaimedJobOwner, blockedJobOwner, now)
    {
      if blockedJobOwner.Some? {
        var leased := exists id :: id in queue.jobs && OwnedBy(queue.jobs[id], blockedJobOwner.value);
        if leased { return Denied; }
      }
      if mirror != observedMirror { return Contended; }
      mirror := None;
      row := Some(identity);
      if reclaimedJobOwner.Some? {
        queue.RecoverLeasesAfterProvenDaemonDeath(reclaimedJobOwner.value, now);
      }
      return Acquired;
    }

    method DeleteDaemonOwnership(expected: Ownership) returns (deleted: bool)
      modifies this
      ensures View() == Delete(old(View()), expected)
      ensures deleted <==> old(row) == Some(expected)
    {
      if row != Some(expected) { return false; }
      if mirror == Some(MirrorOf(expected)) { mirror := None; }
      row := None;
      return true;
    }
  }
}
