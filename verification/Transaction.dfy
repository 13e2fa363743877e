// The transaction executor over an arbitrary backend, and the state reader it refreshes with
// (src/daemon/transaction.c, src/core/state/reader.c).
module Transactions {
  import opened Types
  import opened Attributions
  import opened Backends

  /** A request as it arrives; None is a null pointer. */
  datatype Request =
    | SetProfile(profile: Option<string>)
    | SetMode(mode: Option<string>)
    | SetPowerLimits(limits: Option<PowerLimits>)
    | SetFanTable(table: Option<string>)
    | SetFanBoost(enabled: bool)

  datatype Daemon<S> = Daemon(ctx: S, caps: Capabilities, cache: Snapshot)

  // ----- preflight

  predicate SafeChar(c: char)
  {
    'a' <= c <= 'z' || 'A' <= c <= 'Z' || '0' <= c <= '9' || c == '-' || c == '_' || c == '.'
  }

  predicate SafeName(name: Option<string>)
  {
    name.Some? && name.value != "" && forall i | 0 <= i < |name.value| :: SafeChar(name.value[i])
  }

  /** `name_is_safe`, character by character. */
  method NameIsSafe(name: Option<string>) returns (safe: bool)
    ensures safe == SafeName(name)
  {
    if name.None? || name.value == "" {
      return false;
    }
    var index := 0;
    while index < |name.value|
      invariant 0 <= index <= |name.value|
      invariant forall i | 0 <= i < index :: SafeChar(name.value[i])
    {
      if !SafeChar(name.value[index]) {
        return false;
      }
      index := index + 1;
    }
    return true;
  }

  function OperationName(r: Request): Text32
  {
    match r
    case SetProfile(_) => "set-profile"
    case SetMode(_) => "set-mode"
    case SetPowerLimits(_) => "set-power-limits"
    case SetFanTable(_) => "apply-fan-table"
    case SetFanBoost(_) => "set-fan-boost"
  }

  /** The target a request composes out of the current one, or why it cannot be staged. */
  datatype Staged = Rejected(error: Failure) | Composed(target: Target, op: Operation)

  function Stage(requested: Target, r: Request): Staged
  {
    match r
    case SetProfile(name) =>
      if !SafeName(name) then Rejected(InvalidArgument)
      else if |name.value| >= 64 then Rejected(BufferTooSmall)
      else Composed(requested.(profile := name.value), ApplyProfile(name.value))
    case SetMode(name) =>
      if name.None? || ModeFromName(name.value).None? then Rejected(ParseError)
      else
        var mode := ModeFromName(name.value).value;
        Composed(requested.(profile := ModeName(mode)), ApplyMode(mode))
    case SetPowerLimits(limits) =>
      if limits.None? || !limits.value.AnyPresent() then Rejected(InvalidArgument)
      else Composed(requested.(hasPower := true, power := requested.power.Overwrite(limits.value)),
                    ApplyPower(limits.value))
    case SetFanTable(name) =>
      if !SafeName(name) then Rejected(InvalidArgument)
      else if |name.value| >= 64 then Rejected(BufferTooSmall)
      else Composed(requested.(fanTable := name.value), ApplyFanTable(name.value))
    case SetFanBoost(enabled) =>
      Composed(requested.(hasBoost := true, boost := enabled), ApplyFanBoost(enabled))
  }

  // ----- backend calls

  /** A profile the backend does not support is retried as a mode when it names one. */
  function Apply<S>(b: Ops<S>, ctx: S, op: Operation): Reply<S>
  {
    var first := b.apply(ctx, op, ResetResult());
    if op.ApplyProfile? && first.status == NotSupported && ModeFromName(op.name).Some? then
      b.apply(first.next, ApplyMode(ModeFromName(op.name).value), first.result)
    else first
  }

  datatype Refreshed<S> = Refreshed(ctx: S, status: Status, cache: Snapshot)

  /** The name the reader falls back to, or why it cannot be stored. */
  function NameStatus(name: string): Status
  {
    if name == "" then InvalidArgument else if |name| >= 32 then BufferTooSmall else Ok
  }

  /** A refreshed snapshot keeps the daemon's transaction and last-apply records, and old routing data the
      backend did not report. */
  function Merged(old_: Snapshot, s: Snapshot, backendName: Text32, hardwareWrite: bool): Snapshot
  {
    s.(backendName := if s.backendName == "" then backendName else s.backendName,
       hardwareWrite := s.hardwareWrite || hardwareWrite,
       transaction := old_.transaction,
       lastApply := old_.lastApply,
       selected := if s.selected == "" then old_.selected else s.selected,
       fallbackReason := if s.fallbackReason == "" then old_.fallbackReason else s.fallbackReason,
       execution := if s.execution.readState == "" && old_.execution.readState != "" then old_.execution
           else s.execution)
  }

  /** `lcc_state_reader_refresh`: merge on success, mark everything cached on a failed read. An answer without
      a usable backend name is dropped whole. */
  function Refresh<S>(b: Ops<S>, ctx: S, cache: Snapshot): Refreshed<S>
  {
    var r := b.read(ctx, EmptySnapshot(), ResetResult());
    if r.status != Ok then Refreshed(r.next, r.status, MarkCached(cache))
    else if r.snapshot.backendName == "" && NameStatus(b.name) != Ok then Refreshed(r.next, NameStatus(b.name), cache)
    else Refreshed(r.next, Ok, Merged(cache, r.snapshot, if |b.name| < 32 then b.name else "", r.result.hardwareWrite))
  }

  // ----- the whole transaction

  function FailedAt(r: Request, stage: Text96, pending: Option<Target>, error: Status): Transaction
  {
    Transaction(Failed, OperationName(r), stage, pending.Some?, if pending.Some? then pending.value else EmptyTarget(),
                error)
  }

  function FailureStage(result: Result, status: Status): Text96
  {
    if result.stage != "" then result.stage else if status == NotSupported then "backend-route" else "apply"
  }

  function Attempt(stage: Text96, target: Target, result: Result, error: Status): LastApply
  {
    LastApply(stage, result.executor, true, target, true, result.hardwareWrite, error)
  }

  /** A request that stops before the backend changes only the daemon's own records. */
  function Stopped<S>(d: Daemon<S>, r: Request, stage: Text96, pending: Option<Target>,
                      error: Failure): (Daemon<S>, Status)
  {
    var a := LastApply(stage, "", pending.Some?, if pending.Some? then pending.value else EmptyTarget(), false, false,
                       error);
    (d.(cache := d.cache.(transaction := FailedAt(r, stage, pending, error), lastApply := a)), error)
  }

  /** The backend refused: record why, then refresh whatever the refresh says. */
  function Refused<S>(b: Ops<S>, d: Daemon<S>, r: Request, target: Target, a: Reply<S>): (Daemon<S>, Status)
  {
    var stage := FailureStage(a.result, a.status);
    var failed := d.cache.(transaction := FailedAt(r, stage, Some(target), a.status),
                           lastApply := Attempt(stage, target, a.result, a.status));
    var f := Refresh(b, a.next, failed);
    (d.(ctx := f.ctx, cache := f.cache), a.status)
  }

  /** The cache while an accepted request waits for its refresh. */
  function InFlight(cache: Snapshot, r: Request, target: Target, result: Result): Snapshot
  {
    cache.(transaction := Transaction(Pending, OperationName(r), "state-refresh", true, target, Ok),
           lastApply := Attempt(if result.stage == "" then "apply" else result.stage, target, result, Ok))
  }

  /** The backend accepted: the refresh decides whether the request is done. */
  function Accepted<S>(b: Ops<S>, d: Daemon<S>, r: Request, target: Target, a: Reply<S>): (Daemon<S>, Status)
  {
    var f := Refresh(b, a.next, InFlight(d.cache, r, target, a.result));
    if f.status != Ok then
      (d.(ctx := f.ctx, cache := f.cache.(transaction := FailedAt(r, "state-refresh", Some(target), f.status),
                                          lastApply := Attempt("state-refresh", target, a.result, f.status))), f.status)
    else
      (d.(ctx := f.ctx, cache := f.cache.(hardwareWrite := f.cache.hardwareWrite || a.result.hardwareWrite,
                                          transaction := NoTransaction())), Ok)
  }

  /** `lcc_transaction_execute` */
  function Execute<S>(b: Ops<S>, d: Daemon<S>, r: Request): (Daemon<S>, Status)
  {
    match Stage(d.cache.requested, r)
    case Rejected(error) => Stopped(d, r, "preflight-validate", None, error)
    case Composed(target, op) =>
      if !Supports(d.caps, op) then Stopped(d, r, "capability-gate", Some(target), NotSupported)
      else
        var a := Apply(b, d.ctx, op);
        if a.status != Ok then Refused(b, d, r, target, a) else Accepted(b, d, r, target, a)
  }

  // ----- what every call leaves, for any backend

  /** A rejected or gated request reaches no backend and changes nothing but its own records. */
  ghost predicate Untouched<S>(before: Daemon<S>, after: Daemon<S>)
  {
    && after.ctx == before.ctx && after.caps == before.caps
    && after.cache == before.cache.(transaction := after.cache.transaction, lastApply := after.cache.lastApply)
  }

  predicate Reaches(d: Capabilities, staged: Staged)
  {
    staged.Composed? && Supports(d, staged.op)
  }

  /** The records of a finished call. */
  ghost predicate Recorded<S>(d: Daemon<S>, r: Request, n: Daemon<S>, status: Status)
  {
    var t, a := n.cache.transaction, n.cache.lastApply;
    var staged := Stage(d.cache.requested, r);
    && t.state != Pending && (t.state == Idle <==> status == Ok)
    && t.lastError == status && a.error == status
    && (status == Ok ==> t == NoTransaction())
    && (status != Ok ==> t.operation == OperationName(r) && t.stage == a.stage)
    && (t.hasPending <==> staged.Composed? && status != Ok) && (a.hasTarget <==> staged.Composed?)
    && (t.hasPending ==> t.pending == staged.target) && (a.hasTarget ==> a.target == staged.target)
    && (a.hasHardwareWrite <==> Reaches(d.caps, staged))
    && n.caps == d.caps
  }

  lemma RefreshKeepsRecords<S>(b: Ops<S>, ctx: S, cache: Snapshot)
    ensures var f := Refresh(b, ctx, cache);
      f.cache.transaction == cache.transaction && f.cache.lastApply == cache.lastApply
  {
  }

  lemma RefusedRecords<S>(b: Ops<S>, d: Daemon<S>, r: Request, a: Reply<S>)
    requires Reaches(d.caps, Stage(d.cache.requested, r)) && a.status != Ok
    ensures var (n, status) := Refused(b, d, r, Stage(d.cache.requested, r).target, a);
      Recorded(d, r, n, status)
  {
    var target := Stage(d.cache.requested, r).target;
    var stage := FailureStage(a.result, a.status);
    RefreshKeepsRecords(b, a.next, d.cache.(transaction := FailedAt(r, stage, Some(target), a.status),
                                            lastApply := Attempt(stage, target, a.result, a.status)));
  }

  lemma AcceptedRecords<S>(b: Ops<S>, d: Daemon<S>, r: Request, a: Reply<S>)
    requires Reaches(d.caps, Stage(d.cache.requested, r)) && a.status == Ok
    ensures var (n, status) := Accepted(b, d, r, Stage(d.cache.requested, r).target, a);
      Recorded(d, r, n, status)
  {
    var target := Stage(d.cache.requested, r).target;
    RefreshKeepsRecords(b, a.next, InFlight(d.cache, r, target, a.result));
  }

  lemma StoppedRecords<S>(d: Daemon<S>, r: Request, stage: Text96, pending: Option<Target>, error: Failure)
    requires !Reaches(d.caps, Stage(d.cache.requested, r))
    requires pending == if Stage(d.cache.requested, r).Composed? then Some(Stage(d.cache.requested, r).target) else None
    ensures var (n, status) := Stopped(d, r, stage, pending, error);
      Recorded(d, r, n, status) && Untouched(d, n)
  {
  }

  /** For any backend and any answers: the transaction is never left pending; it is idle exactly on success;
      a failure is recorded in both places and survives the refresh; the composed target is kept; and a request
      stopped before the backend leaves it, and everything published, alone. */
  lemma ExecuteContract<S>(b: Ops<S>, d: Daemon<S>, r: Request)
    ensures var (n, status) := Execute(b, d, r);
      && Recorded(d, r, n, status)
      && (!Reaches(d.caps, Stage(d.cache.requested, r)) ==> Untouched(d, n) && status != Ok)
  {
    match Stage(d.cache.requested, r) {
      case Rejected(error) =>
        StoppedRecords(d, r, "preflight-validate", None, error);
      case Composed(target, op) =>
        var a := Apply(b, d.ctx, op);
        if !Supports(d.caps, op) {
          StoppedRecords(d, r, "capability-gate", Some(target), NotSupported);
        } else if a.status != Ok {
          RefusedRecords(b, d, r, a);
        } else {
          AcceptedRecords(b, d, r, a);
        }
    }
  }

  /** After a failed refresh the values are the old ones and every mark is cache, unless the backend answered
      without a usable name, when the old snapshot is kept as it was. */
  lemma RefreshFailure<S>(b: Ops<S>, ctx: S, cache: Snapshot)
    requires Refresh(b, ctx, cache).status != Ok
    ensures var f := Refresh(b, ctx, cache);
      && f.cache == cache.(meta := f.cache.meta)
      && if b.read(ctx, EmptySnapshot(), ResetResult()).status != Ok then OnlyCache(f.cache.meta)
          else f.cache.meta == cache.meta
  {
    MarkCachedSound(cache);
  }

  // ----- runs

  /** One call of a run: the request and the backend as it behaves during that call. */
  datatype Event<!S> = Event(backend: Ops<S>, request: Request)

  function After<S>(d: Daemon<S>, events: seq<Event<S>>): Daemon<S>
  {
    if events == [] then d
    else Execute(events[|events| - 1].backend, After(d, events[..|events| - 1]), events[|events| - 1].request).0
  }

  /** After every call of every run over any backends the records are those of the last call, and the
      published state was reached by requests that reached a backend only. */
  lemma {:induction false} EveryRunRecorded<S>(d: Daemon<S>, events: seq<Event<S>>)
    requires events != []
    ensures var e := events[|events| - 1]; var before := After(d, events[..|events| - 1]);
      var (n, status) := Execute(e.backend, before, e.request);
      After(d, events) == n && Recorded(before, e.request, n, status)
    ensures (forall i | 0 <= i < |events| ::
             !Reaches(d.caps, Stage(After(d, events[..i]).cache.requested, events[i].request)))
      ==> Untouched(d, After(d, events))
  {
    var front, e := events[..|events| - 1], events[|events| - 1];
    var before := After(d, front);
    ExecuteContract(e.backend, before, e.request);
    if front != [] {
      EveryRunRecorded(d, front);
      assert forall i | 0 <= i < |front| :: front[..i] == events[..i] && front[i] == events[i];
    }
    CapsKept(d, front);
  }

  lemma {:induction false} CapsKept<S>(d: Daemon<S>, events: seq<Event<S>>)
    ensures After(d, events).caps == d.caps
  {
    if events != [] {
      var front, e := events[..|events| - 1], events[|events| - 1];
      CapsKept(d, front);
      ExecuteContract(e.backend, After(d, front), e.request);
    }
  }
}
