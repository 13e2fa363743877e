// The daemon over the mock backend refines a store that holds one target and a set of armed failures.
module MockRuns {
  import opened Types
  import opened Attributions
  import opened Backends
  import opened Transactions
  import opened Mocks

  datatype Step = Inject(slot: Slot, status: Status) | Do(request: Request)

  function Run(d: Daemon<Mock>, steps: seq<Step>): Daemon<Mock>
  {
    if steps == [] then d else Taken(Run(d, steps[..|steps| - 1]), steps[|steps| - 1])
  }

  function Taken(d: Daemon<Mock>, step: Step): Daemon<Mock>
  {
    match step
    case Inject(slot, status) => d.(ctx := d.ctx.(fail := d.ctx.fail.Armed(slot, status)))
    case Do(request) => Execute(Table(), d, request).0
  }

  // ----- the abstract store

  datatype Store = Store(target: Target, caps: Capabilities, fail: Failures)

  /** Which armed failures a call of the daemon uses up, and the status it ends with. A profile the mock calls
      unsupported is tried again as a mode. */
  function Verdict(fail: Failures, op: Operation): (Failures, Status)
  {
    match op
    case ApplyProfile(name) =>
      var rest := fail.Armed(ProfileSlot, Ok);
      if fail.profile == NotSupported && ModeFromName(name).Some? then (rest.Armed(ModeSlot, Ok), fail.mode)
      else (rest, fail.profile)
    case ApplyMode(_) =>
      var rest := fail.Armed(ModeSlot, Ok);
      if fail.mode != Ok then (rest, fail.mode) else (rest.Armed(ProfileSlot, Ok), fail.profile)
    case ApplyPower(_) => (fail.Armed(PowerSlot, Ok), fail.power)
    case ApplyFanTable(_) => (fail.Armed(FanSlot, Ok), fail.fan)
    case ApplyFanBoost(_) => (fail.Armed(BoostSlot, Ok), fail.boost)
  }

  /** A request replaces the whole target or leaves it alone. */
  function StoreDo(s: Store, r: Request): (Store, Status)
  {
    match Stage(s.target, r)
    case Rejected(error) => (s, error)
    case Composed(target, op) =>
      if !Supports(s.caps, op) then (s, NotSupported)
      else
        var (fail, status) := Verdict(s.fail, op);
        (s.(fail := fail, target := if status == Ok then target else s.target), status)
  }

  function StoreTaken(s: Store, step: Step): Store
  {
    match step
    case Inject(slot, status) => s.(fail := s.fail.Armed(slot, status))
    case Do(request) => StoreDo(s, request).0
  }

  function StoreRun(s: Store, steps: seq<Step>): Store
  {
    if steps == [] then s else StoreTaken(StoreRun(s, steps[..|steps| - 1]), steps[|steps| - 1])
  }

  // ----- the simulation

  function View(d: Daemon<Mock>): Store { Store(d.cache.requested, d.caps, d.ctx.fail) }

  /** Cached requested, cached effective, mock requested and mock effective are one target, and what is published
      is sound and current. */
  predicate Aligned(d: Daemon<Mock>)
  {
    && d.cache.requested == d.cache.effective == d.ctx.state.requested == d.ctx.state.effective
    && d.cache.meta == d.ctx.state.meta && d.cache.thermal == d.ctx.state.thermal
    && Sound(d.ctx.state)
  }

  predicate InStep(m: Mock) { m.state.requested == m.state.effective && Sound(m.state) }

  /** Refreshing from any cache, even an empty one, aligns the daemon. */
  lemma RefreshAligns(d: Daemon<Mock>)
    requires InStep(d.ctx)
    ensures var f := Refresh(Table(), d.ctx, d.cache);
      && f.status == Ok && f.ctx == d.ctx && Aligned(d.(cache := f.cache))
      && f.cache.transaction == d.cache.transaction && f.cache.lastApply == d.cache.lastApply
  {
  }

  lemma SeedInStep()
    ensures InStep(Mock(AllCapabilities(), Seed(), NothingArmed()))
  {
    var m := EmptyMeta().(profile := LiveMock(), fanTable := LiveMock(), fanBoost := LiveMock(), thermal := LiveMock());
    assert LiveMock().source != "" && LiveMock().freshness != "";
    FinalizeIdempotent(PowerFromLimits(m, Some(SeedTarget().power), LiveMock()));
  }

  /** What the mock does to its own state for one backend operation. */
  predicate Applied(m: Mock, op: Operation, target: Target, n: Mock, status: Status)
  {
    && (n.fail, status) == Verdict(m.fail, op)
    && InStep(n) && n.caps == m.caps
    && n.state.requested == (if status == Ok then target else m.state.requested)
    && (status != Ok ==> n.state == m.state)
  }

  lemma WithKeeps(s: Snapshot, meta: Meta)
    requires s.requested == s.effective
    requires Explained(s.(meta := meta))
    requires s.meta == Finalized(meta)
    ensures Sound(s)
  {
    FinalizeIdempotent(meta);
  }

  lemma SetProfileApplied(m: Mock, name: string, incoming: Result)
    requires InStep(m) && name != "" && |name| < 64
    ensures var a := Mocks.SetProfile(m, name, incoming); var ok := m.fail.profile == Ok;
      && a.status == m.fail.profile && a.next.fail == m.fail.Armed(ProfileSlot, Ok) && InStep(a.next) &&
          a.next.caps == m.caps
      && (ok ==> a.next.state.requested == m.state.requested.(profile := name))
      && (!ok ==> a.next.state == m.state)
  {
    WithKeeps(WithProfile(m.state, name), m.state.meta.(profile := LiveMock()));
  }

  lemma SetModeApplied(m: Mock, mode: Mode)
    requires InStep(m)
    ensures var a := Mocks.SetMode(m, mode);
      && (a.next.fail, a.status) == Verdict(m.fail, ApplyMode(mode)) && InStep(a.next) && a.next.caps == m.caps
      && (a.status == Ok ==> a.next.state.requested == m.state.requested.(profile := ModeName(mode)))
      && (a.status != Ok ==> a.next.state == m.state)
  {
    if m.fail.mode == Ok {
      assert |ModeName(mode)| > 0;
      SetProfileApplied(m.(fail := m.fail.Armed(ModeSlot, Ok)), ModeName(mode), Started());
    }
  }

  lemma SetPowerApplied(m: Mock, l: PowerLimits, target: Target)
    requires InStep(m) && Stage(m.state.requested, SetPowerLimits(Some(l))) == Composed(target, ApplyPower(l))
    ensures var a := Mocks.SetPower(m, l); Applied(m, ApplyPower(l), target, a.next, a.status)
  {
    var merged := m.state.requested.power.Overwrite(l);
    WithKeeps(WithPower(m.state, merged), PowerFromLimits(m.state.meta, Some(merged), LiveMock()));
  }

  lemma SetFanTableApplied(m: Mock, name: string, target: Target, incoming: Result)
    requires InStep(m) && Stage(m.state.requested, Request.SetFanTable(Some(name))) ==
      Composed(target, ApplyFanTable(name))
    ensures var a := Mocks.SetFanTable(m, name, incoming); Applied(m, ApplyFanTable(name), target, a.next, a.status)
  {
    WithKeeps(WithFanTable(m.state, name), m.state.meta.(fanTable := LiveMock()));
  }

  lemma SetBoostApplied(m: Mock, enabled: bool, target: Target)
    requires InStep(m) && Stage(m.state.requested, SetFanBoost(enabled)) == Composed(target, ApplyFanBoost(enabled))
    ensures var a := Mocks.SetBoost(m, enabled); Applied(m, ApplyFanBoost(enabled), target, a.next, a.status)
  {
    WithKeeps(WithBoost(m.state, enabled), m.state.meta.(fanBoost := LiveMock()));
  }

  lemma ModeNameParses(name: string)
    requires ModeFromName(name).Some?
    ensures ModeName(ModeFromName(name).value) == name
  {
  }

  lemma SetProfileTwice(m: Mock, name: string, target: Target)
    requires InStep(m) && Stage(m.state.requested, Request.SetProfile(Some(name))) ==
      Composed(target, ApplyProfile(name))
    ensures var a := Apply(Table(), m, ApplyProfile(name)); Applied(m, ApplyProfile(name), target, a.next, a.status)
  {
    SetProfileApplied(m, name, ResetResult());
    var first := Mocks.SetProfile(m, name, ResetResult());
    if first.status == NotSupported && ModeFromName(name).Some? {
      ModeNameParses(name);
      SetModeApplied(first.next, ModeFromName(name).value);
    }
  }

  /** The executor's backend call does to the mock what the abstract store expects. */
  lemma BackendCallApplied(m: Mock, r: Request)
    requires InStep(m) && Stage(m.state.requested, r).Composed?
    ensures var staged := Stage(m.state.requested, r); var a := Apply(Table(), m, staged.op);
      Applied(m, staged.op, staged.target, a.next, a.status)
  {
    var staged := Stage(m.state.requested, r);
    match r
    case SetProfile(name) => SetProfileTwice(m, name.value, staged.target);
    case SetMode(name) => SetModeApplied(m, ModeFromName(name.value).value);
    case SetPowerLimits(limits) => SetPowerApplied(m, limits.value, staged.target);
    case SetFanTable(name) => SetFanTableApplied(m, name.value, staged.target, ResetResult());
    case SetFanBoost(enabled) => SetBoostApplied(m, enabled, staged.target);
  }

  /** One request: a success moves all four targets to the composed one, which the record names; a failure moves none.
      The status, the target and the armed failures are those of the abstract store. */
  lemma RequestRefines(d: Daemon<Mock>, r: Request)
    requires Aligned(d)
    ensures var (n, status) := Execute(Table(), d, r);
      && Aligned(n) && (View(n), status) == StoreDo(View(d), r)
      && (status == Ok ==> n.cache.requested == n.cache.lastApply.target == Stage(d.cache.requested, r).target)
      && (status != Ok ==> n.ctx.state == d.ctx.state)
  {
    ExecuteContract(Table(), d, r);
    var staged := Stage(d.cache.requested, r);
    if Reaches(d.caps, staged) {
      BackendCallApplied(d.ctx, r);
      var a := Apply(Table(), d.ctx, staged.op);
      if a.status == Ok {
        RefreshAligns(d.(ctx := a.next, cache := InFlight(d.cache, r, staged.target, a.result)));
      } else {
        var stage := FailureStage(a.result, a.status);
        RefreshAligns(d.(ctx := a.next, cache := d.cache.(transaction := FailedAt(r, stage, Some(staged.target),
                                                                                  a.status),
                                                          lastApply := Attempt(stage, staged.target, a.result,
                                                                               a.status))));
      }
    }
  }

  /** Every run, with failures injected anywhere, is a run of the abstract store. */
  lemma {:induction false} EveryRunRefines(d: Daemon<Mock>, steps: seq<Step>)
    requires Aligned(d)
    ensures Aligned(Run(d, steps)) && View(Run(d, steps)) == StoreRun(View(d), steps)
  {
    if steps != [] {
      var front, last := steps[..|steps| - 1], steps[|steps| - 1];
      EveryRunRefines(d, front);
      if last.Do? {
        RequestRefines(Run(d, front), last.request);
      }
    }
  }
}
