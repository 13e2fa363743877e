// The manager object: the executor's steps over the cached snapshot, in the order the daemon takes them
// (src/daemon/transaction.c, src/core/state/reader.c).
module Managers {
  import opened Types
  import opened Attributions
  import opened Backends
  import opened Transactions

  class Manager<S> {
    var backend: Ops<S>
    var ctx: S
    var caps: Capabilities
    var cache: Snapshot

    ghost function Value(): Daemon<S>
      reads this
    {
      Daemon(ctx, caps, cache)
    }

    constructor (backend: Ops<S>, ctx: S, caps: Capabilities, cache: Snapshot)
      ensures this.backend == backend && Value() == Daemon(ctx, caps, cache)
    {
      this.backend, this.ctx, this.caps, this.cache := backend, ctx, caps, cache;
    }

    /** `transaction_begin` */
    method Begin(operation: Text32)
      modifies `cache
      ensures cache == old(cache).(transaction := Transaction(Pending, operation, "", false, EmptyTarget(), Ok),
                                   lastApply := NoLastApply())
    {
      cache := cache.(transaction := cache.transaction.(state := Pending, operation := operation, stage := "",
                                                        hasPending := false, pending := EmptyTarget(),
                                                            lastError := Ok));
      cache := cache.(lastApply := NoLastApply());
    }

    method MarkPublicStage(stage: Text96)
      modifies `cache
      ensures cache == old(cache).(transaction := old(cache).transaction.(stage := stage),
                                   lastApply := old(cache).lastApply.(stage := stage))
    {
      UpdateStage(stage);
      cache := cache.(lastApply := cache.lastApply.(stage := stage));
    }

    method UpdateStage(stage: Text96)
      modifies `cache
      ensures cache == old(cache).(transaction := old(cache).transaction.(stage := stage))
    {
      cache := cache.(transaction := cache.transaction.(stage := stage));
    }

    method SetPendingTarget(target: Option<Target>)
      modifies `cache
      ensures var t := if target.Some? then target.value else EmptyTarget();
        cache == old(cache).(transaction := old(cache).transaction.(hasPending := target.Some?, pending := t),
                             lastApply := old(cache).lastApply.(hasTarget := target.Some?, target := t))
    {
      var t := if target.Some? then target.value else EmptyTarget();
      cache := cache.(transaction := cache.transaction.(hasPending := target.Some?, pending := t));
      cache := cache.(lastApply := cache.lastApply.(hasTarget := target.Some?, target := t));
    }

    /** `transaction_fail` */
    method Fail(r: Request, stage: Text96, backendName: Text32, pending: Option<Target>, error: Status)
      modifies `cache
      ensures var t := if pending.Some? then pending.value else EmptyTarget();
        cache == old(cache).(transaction := FailedAt(r, stage, pending, error),
                             lastApply := old(cache).lastApply.(stage := stage, backend := backendName,
                                                                hasTarget := pending.Some?, target := t,
                                                                    error := error))
    {
      cache := cache.(transaction := cache.transaction.(state := Failed, operation := OperationName(r)));
      UpdateStage(stage);
      SetPendingTarget(pending);
      cache := cache.(transaction := cache.transaction.(lastError := error),
                      lastApply := cache.lastApply.(error := error, stage := stage, backend := backendName));
    }

    /** `lcc_state_reader_refresh` on the cached snapshot. */
    method RefreshState() returns (status: Status)
      modifies `ctx, `cache
      ensures Refreshed(ctx, status, cache) == Refresh(backend, old(ctx), old(cache))
    {
      var previous := cache;
      var r := backend.read(ctx, EmptySnapshot(), ResetResult());
      ctx := r.next;
      if r.status != Ok {
        cache := MarkCached(previous);
        return r.status;
      }
      var refreshed := r.snapshot;
      if refreshed.backendName == "" {
        if NameStatus(backend.name) != Ok {
          return NameStatus(backend.name);
        }
        refreshed := refreshed.(backendName := backend.name);
      }
      if r.result.hardwareWrite {
        refreshed := refreshed.(hardwareWrite := true);
      }
      refreshed := refreshed.(transaction := previous.transaction, lastApply := previous.lastApply);
      if refreshed.selected == "" && previous.selected != "" {
        refreshed := refreshed.(selected := previous.selected);
      }
      if refreshed.fallbackReason == "" && previous.fallbackReason != "" {
        refreshed := refreshed.(fallbackReason := previous.fallbackReason);
      }
      if refreshed.execution.readState == "" && previous.execution.readState != "" {
        refreshed := refreshed.(execution := previous.execution);
      }
      cache := refreshed;
      return Ok;
    }

    /** `transaction_apply` */
    method ApplyOperation(op: Operation) returns (status: Status, result: Result)
      modifies `ctx
      ensures Reply(ctx, status, result) == Apply(backend, old(ctx), op)
    {
      var first := backend.apply(ctx, op, ResetResult());
      ctx, status, result := first.next, first.status, first.result;
      if op.ApplyProfile? && status == NotSupported {
        var mode := ModeFromName(op.name);
        if mode.Some? {
          var second := backend.apply(ctx, ApplyMode(mode.value), result);
          ctx, status, result := second.next, second.status, second.result;
        }
      }
    }

    method RecordAttempt(result: Result)
      modifies `cache
      ensures cache == old(cache).(
        lastApply := old(cache).lastApply.(
          hasHardwareWrite := true, hardwareWrite := result.hardwareWrite,
          backend := if result.executor != "" then result.executor else old(cache).lastApply.backend,
          stage := if result.stage != "" then result.stage else "apply"),
        transaction := old(cache).transaction.(stage := if result.stage != "" then result.stage
                                               else old(cache).transaction.stage))
    {
      cache := cache.(lastApply := cache.lastApply.(hasHardwareWrite := true, hardwareWrite := result.hardwareWrite));
      if result.executor != "" {
        cache := cache.(lastApply := cache.lastApply.(backend := result.executor));
      }
      if result.stage != "" {
        MarkPublicStage(result.stage);
      } else {
        cache := cache.(lastApply := cache.lastApply.(stage := "apply"));
      }
    }

    /** `lcc_transaction_execute` */
    method ExecuteRequest(r: Request) returns (status: Status)
      modifies this
      ensures backend == old(backend)
      ensures (Value(), status) == Execute(backend, old(Value()), r)
    {
      Begin(OperationName(r));
      MarkPublicStage("preflight-validate");
      var staged := Stage(cache.requested, r);
      if staged.Rejected? {
        Fail(r, "preflight-validate", "", None, staged.error);
        return staged.error;
      }
      status := GateRequest(r, staged.target, staged.op, old(Value()));
    }

    /** The capability gate. */
    method GateRequest(r: Request, target: Target, op: Operation, ghost d: Daemon<S>) returns (status: Status)
      requires Stage(d.cache.requested, r) == Composed(target, op)
      requires ctx == d.ctx && caps == d.caps
      requires cache == d.cache.(transaction := Transaction(Pending, OperationName(r), "preflight-validate", false,
                                                            EmptyTarget(), Ok),
                                 lastApply := NoLastApply().(stage := "preflight-validate"))
      modifies `ctx, `cache
      ensures (Value(), status) == Execute(backend, d, r)
    {
      SetPendingTarget(Some(target));
      MarkPublicStage("capability-gate");
      if !Supports(caps, op) {
        Fail(r, "capability-gate", "", Some(target), NotSupported);
        return NotSupported;
      }
      UpdateStage("backend-route");
      status := RunBackend(r, target, op, d);
    }

    /** From the backend call to the end of the transaction. */
    method RunBackend(r: Request, target: Target, op: Operation, ghost d: Daemon<S>) returns (status: Status)
      requires Stage(d.cache.requested, r) == Composed(target, op) && Supports(d.caps, op)
      requires ctx == d.ctx && caps == d.caps
      requires cache == d.cache.(transaction := Transaction(Pending, OperationName(r), "backend-route", true, target,
                                                            Ok),
                                 lastApply := LastApply("capability-gate", "", true, target, false, false, Ok))
      modifies `ctx, `cache
      ensures (Value(), status) == Execute(backend, d, r)
    {
      var result;
      status, result := ApplyOperation(op);
      RecordAttempt(result);
      if status != Ok {
        status := FinishRefused(r, target, status, result, d);
      } else {
        cache := cache.(lastApply := cache.lastApply.(hasTarget := true, target := target, backend := result.executor,
                                                      error := Ok));
        UpdateStage("state-refresh");
        status := FinishAccepted(r, target, result, d);
      }
    }

    method FinishRefused(r: Request, target: Target, error: Status, result: Result, ghost d: Daemon<S>)
      returns (status: Status)
      requires caps == d.caps && error != Ok
      requires cache.lastApply.hasHardwareWrite && cache.lastApply.hardwareWrite == result.hardwareWrite
      requires cache == d.cache.(transaction := cache.transaction, lastApply := cache.lastApply)
      modifies `ctx, `cache
      ensures (Value(), status) == Refused(backend, d, r, target, Reply(old(ctx), error, result))
    {
      var failureStage: Text96 :=
        if result.stage != "" then result.stage else if error == NotSupported then "backend-route" else "apply";
      Fail(r, failureStage, result.executor, Some(target), error);
      var ignored := RefreshState();
      return error;
    }

    method FinishAccepted(r: Request, target: Target, result: Result, ghost d: Daemon<S>) returns (status: Status)
      requires caps == d.caps && cache == InFlight(d.cache, r, target, result)
      modifies `ctx, `cache
      ensures (Value(), status) == Accepted(backend, d, r, target, Reply(old(ctx), Ok, result))
    {
      status := RefreshState();
      if status != Ok {
        Fail(r, "state-refresh", result.executor, Some(target), status);
        return;
      }
      if result.hardwareWrite {
        cache := cache.(hardwareWrite := true);
      }
      cache := cache.(transaction := NoTransaction());
    }
  }
}
