/** Identities of operating-system processes and of the ownership records they write
    (src/cli/daemon-ownership.ts). */
module Processes {

  type Pid = nat

  /** A process: a pid alone may be reused, pid with birth marker is not. */
  datatype Proc = Proc(pid: Pid, birth: nat)

  datatype Purpose = Telegram | Recovery

  /** The `process_birth` column: a daemon's own marker, or a maintenance generation
      token around the marker of the process holding it. */
  datatype BirthTag = DaemonBirth(birth: nat) | MaintenanceBirth(purpose: Purpose, token: nat, birth: nat)

  datatype Ownership = Ownership(pid: Pid, startedAt: nat, tag: BirthTag)
  {
    function Holder(): Proc { Proc(pid, tag.birth) }

    predicate IsMaintenance() { tag.MaintenanceBirth? }
  }

  /** Prefix of a job lease: a daemon generation, a daemon from before ownership
      records, or anything else. */
  datatype JobOwner = DaemonOwner(daemon: Ownership) | LegacyOwner(pid: Pid) | OtherOwner(name: string)
}
