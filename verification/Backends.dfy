// The operation table between orchestration and hardware access (include/lcc/backend.h).
module Backends {
  import opened Types

  datatype Operation =
    | ApplyProfile(name: string)
    | ApplyMode(mode: Mode)
    | ApplyPower(limits: PowerLimits)
    | ApplyFanTable(table: string)
    | ApplyFanBoost(enabled: bool)

  datatype Reply<S> = Reply(next: S, status: Status, result: Result)

  datatype ReadReply<S> = ReadReply(next: S, status: Status, snapshot: Snapshot, result: Result)

  /** A function table with its context threaded through. The result (and, for a read, the snapshot)
      the caller passes in is an argument, because an operation may leave it untouched. */
  datatype Ops<!S> = Ops(
    name: string,
    read: (S, Snapshot, Result) -> ReadReply<S>,
    apply: (S, Operation, Result) -> Reply<S>)

  predicate Supports(c: Capabilities, op: Operation)
  {
    match op
    case ApplyProfile(_) => c.canProfile
    case ApplyMode(_) => c.canMode
    case ApplyPower(_) => c.canPower
    case ApplyFanTable(_) => c.canFanTable
    case ApplyFanBoost(_) => c.canFanBoost
  }
}
