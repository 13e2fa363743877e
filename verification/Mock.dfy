// The mock backend with its injectable failures, and the daemon over it as a store of one target
// (src/backends/mock/mock-backend.c).
module Mocks {
  import opened Types
  import opened Attributions
  import opened Backends

  datatype Slot = ProfileSlot | ModeSlot | PowerSlot | FanSlot | BoostSlot

  /** The status the next call of each kind fails with; Ok arms nothing. */
  datatype Failures = Failures(profile: Status, mode: Status, power: Status, fan: Status, boost: Status) {
    function Armed(slot: Slot, status: Status): Failures
    {
      match slot
      case ProfileSlot => this.(profile := status)
      case ModeSlot => this.(mode := status)
      case PowerSlot => this.(power := status)
      case FanSlot => this.(fan := status)
      case BoostSlot => this.(boost := status)
    }
  }

  datatype Mock = Mock(caps: Capabilities, state: Snapshot, fail: Failures)

  function MockName(): Text32 { "mock" }
  function LiveMock(): Attribution { Attribution(MockName(), "live") }
  function Started(): Result { ResetResult().(executor := MockName()) }
  function Refusal(call: string): Result { SetDetail(Started(), call) }

  // ----- the operations

  function WithProfile(s: Snapshot, name: Text64): Snapshot
  {
    s.(requested := s.requested.(profile := name), effective := s.effective.(profile := name),
       meta := Finalized(s.meta.(profile := LiveMock())))
  }

  function WithPower(s: Snapshot, merged: PowerLimits): Snapshot
  {
    s.(requested := s.requested.(hasPower := true, power := merged),
       effective := s.effective.(hasPower := true, power := merged),
       meta := Finalized(PowerFromLimits(s.meta, Some(merged), LiveMock())))
  }

  function WithFanTable(s: Snapshot, name: Text64): Snapshot
  {
    s.(requested := s.requested.(fanTable := name), effective := s.effective.(fanTable := name),
       meta := Finalized(s.meta.(fanTable := LiveMock())))
  }

  function WithBoost(s: Snapshot, enabled: bool): Snapshot
  {
    s.(requested := s.requested.(hasBoost := true, boost := enabled),
       effective := s.effective.(hasBoost := true, boost := enabled),
       meta := Finalized(s.meta.(fanBoost := LiveMock())))
  }

  /** A name that does not fit is cut into the requested field before the call fails. */
  function SetProfile(m: Mock, name: string, incoming: Result): Reply<Mock>
  {
    if name == "" then Reply(m, InvalidArgument, incoming)
    else
      var m1 := m.(fail := m.fail.Armed(ProfileSlot, Ok));
      if m.fail.profile != Ok then Reply(m1, m.fail.profile, Refusal("mock apply_profile failed"))
      else if |name| >= 64 then
        Reply(m1.(state := m.state.(requested := m.state.requested.(profile := Truncate(name, 64)))), BufferTooSmall,
              Started())
      else
        Reply(m1.(state := WithProfile(m.state, name)), Ok,
              Started().(changed := m.state.requested.profile != name || m.state.effective.profile != name))
  }

  function SetMode(m: Mock, mode: Mode): Reply<Mock>
  {
    var m1 := m.(fail := m.fail.Armed(ModeSlot, Ok));
    if m.fail.mode != Ok then Reply(m1, m.fail.mode, Refusal("mock apply_mode failed"))
    else SetProfile(m1, ModeName(mode), Started())
  }

  function SetPower(m: Mock, limits: PowerLimits): Reply<Mock>
  {
    var m1 := m.(fail := m.fail.Armed(PowerSlot, Ok));
    if m.fail.power != Ok then Reply(m1, m.fail.power, Refusal("mock apply_power_limits failed"))
    else if !limits.AnyPresent() then
      Reply(m1, InvalidArgument, Refusal("mock apply_power_limits requires at least one limit"))
    else
      var was := m.state.requested;
      var merged := was.power.Overwrite(limits);
      Reply(m1.(state := WithPower(m.state, merged)), Ok, Started().(changed := !was.hasPower || was.power != merged))
  }

  function SetFanTable(m: Mock, name: string, incoming: Result): Reply<Mock>
  {
    if name == "" then Reply(m, InvalidArgument, incoming)
    else
      var m1 := m.(fail := m.fail.Armed(FanSlot, Ok));
      if m.fail.fan != Ok then Reply(m1, m.fail.fan, Refusal("mock apply_fan_table failed"))
      else if |name| >= 64 then
        Reply(m1.(state := m.state.(requested := m.state.requested.(fanTable := Truncate(name, 64)))), BufferTooSmall,
              Started())
      else
        Reply(m1.(state := WithFanTable(m.state, name)), Ok,
              Started().(changed := m.state.requested.fanTable != name || m.state.effective.fanTable != name))
  }

  function SetBoost(m: Mock, enabled: bool): Reply<Mock>
  {
    var m1 := m.(fail := m.fail.Armed(BoostSlot, Ok));
    if m.fail.boost != Ok then Reply(m1, m.fail.boost, Refusal("mock apply_fan_boost failed"))
    else
      var r, e := m.state.requested, m.state.effective;
      Reply(m1.(state := WithBoost(m.state, enabled)), Ok,
            Started().(changed := !r.hasBoost || !e.hasBoost || r.boost != enabled || e.boost != enabled))
  }

  function Read(m: Mock): ReadReply<Mock>
  {
    ReadReply(m, Ok, m.state.(backendName := MockName(), selected := MockName(), fallbackReason := ""), Started())
  }

  function ApplyOn(m: Mock, op: Operation, incoming: Result): Reply<Mock>
  {
    match op
    case ApplyProfile(name) => SetProfile(m, name, incoming)
    case ApplyMode(mode) => SetMode(m, mode)
    case ApplyPower(limits) => SetPower(m, limits)
    case ApplyFanTable(name) => SetFanTable(m, name, incoming)
    case ApplyFanBoost(enabled) => SetBoost(m, enabled)
  }

  function Table(): Ops<Mock>
  {
    Ops(MockName(), (m: Mock, old_: Snapshot, r: Result) => Read(m), ApplyOn)
  }

  // ----- in place

  class MockBackend {
    var caps: Capabilities
    var state: Snapshot
    var fail: Failures

    ghost function Value(): Mock
      reads this
    {
      Mock(caps, state, fail)
    }

    /** `lcc_mock_backend_seed_defaults` */
    constructor ()
      ensures Value() == Mock(AllCapabilities(), Seed(), NothingArmed())
    {
      caps, state, fail := AllCapabilities(), Seed(), NothingArmed();
    }

    /** `lcc_mock_backend_fail_next_*` */
    method FailNext(slot: Slot, status: Status)
      modifies `fail
      ensures Value() == old(Value()).(fail := old(fail).Armed(slot, status))
    {
      fail := fail.Armed(slot, status);
    }

    /** `consume_failure`: an armed failure fires once. */
    method Consume(slot: Slot) returns (status: Status)
      modifies `fail
      ensures fail == old(fail).Armed(slot, Ok)
      ensures old(fail).Armed(slot, status) == old(fail)
    {
      match slot {
        case ProfileSlot => status := fail.profile;
        case ModeSlot => status := fail.mode;
        case PowerSlot => status := fail.power;
        case FanSlot => status := fail.fan;
        case BoostSlot => status := fail.boost;
      }
      fail := fail.Armed(slot, Ok);
    }

    method CopyProfile(name: string) returns (status: Status)
      modifies `state
      ensures status == if |name| >= 64 then BufferTooSmall else Ok
      ensures status != Ok ==> state == old(state).(requested := old(state).requested.(profile := Truncate(name, 64)))
      ensures status == Ok ==> state == old(state).(requested := old(state).requested.(profile := name),
                                                    effective := old(state).effective.(profile := name))
    {
      state := state.(requested := state.requested.(profile := Truncate(name, 64)));
      if |name| >= 64 {
        return BufferTooSmall;
      }
      state := state.(effective := state.effective.(profile := name));
      return Ok;
    }

    method CopyFanTable(name: string) returns (status: Status)
      modifies `state
      ensures status == if |name| >= 64 then BufferTooSmall else Ok
      ensures status != Ok ==> state == old(state).(requested := old(state).requested.(fanTable := Truncate(name, 64)))
      ensures status == Ok ==> state == old(state).(requested := old(state).requested.(fanTable := name),
                                                    effective := old(state).effective.(fanTable := name))
    {
      state := state.(requested := state.requested.(fanTable := Truncate(name, 64)));
      if |name| >= 64 {
        return BufferTooSmall;
      }
      state := state.(effective := state.effective.(fanTable := name));
      return Ok;
    }

    method ApplyProfile(name: string, incoming: Result) returns (status: Status, result: Result)
      modifies `state, `fail
      ensures Reply(Value(), status, result) == SetProfile(old(Value()), name, incoming)
    {
      if name == "" {
        return InvalidArgument, incoming;
      }
      result := Started();
      status := Consume(ProfileSlot);
      if status != Ok {
        return status, SetDetail(result, "mock apply_profile failed");
      }
      var changed := state.requested.profile != name || state.effective.profile != name;
      status := CopyProfile(name);
      if status != Ok {
        return;
      }
      result := result.(changed := changed);
      state := state.(meta := state.meta.(profile := LiveMock()));
      var meta := Finalize(state.meta);
      state := state.(meta := meta);
    }

    method ApplyMode(mode: Mode, incoming: Result) returns (status: Status, result: Result)
      modifies `state, `fail
      ensures Reply(Value(), status, result) == SetMode(old(Value()), mode)
    {
      result := Started();
      status := Consume(ModeSlot);
      if status != Ok {
        return status, SetDetail(result, "mock apply_mode failed");
      }
      status, result := ApplyProfile(ModeName(mode), result);
    }

    method ApplyPowerLimits(limits: PowerLimits, incoming: Result) returns (status: Status, result: Result)
      modifies `state, `fail
      ensures Reply(Value(), status, result) == SetPower(old(Value()), limits)
    {
      result := Started();
      status := Consume(PowerSlot);
      if status != Ok {
        return status, SetDetail(result, "mock apply_power_limits failed");
      }
      if !limits.AnyPresent() {
        return InvalidArgument, SetDetail(result, "mock apply_power_limits requires at least one limit");
      }
      var changed := StorePower(limits);
      result := result.(changed := changed);
    }

    /** The merge into both targets, and its mark. */
    method StorePower(limits: PowerLimits) returns (changed: bool)
      modifies `state
      ensures var was := old(state).requested; var merged := was.power.Overwrite(limits);
        state == WithPower(old(state), merged) && changed == (!was.hasPower || was.power != merged)
    {
      var merged := state.requested.power;
      if limits.pl1.present { merged := merged.(pl1 := limits.pl1); }
      if limits.pl2.present { merged := merged.(pl2 := limits.pl2); }
      if limits.pl4.present { merged := merged.(pl4 := limits.pl4); }
      if limits.tcc.present { merged := merged.(tcc := limits.tcc); }
      assert merged == state.requested.power.Overwrite(limits);
      changed := !state.requested.hasPower || state.requested.power != merged;
      SetTargets(merged);
      var meta := Finalize(PowerFromLimits(state.meta, Some(merged), LiveMock()));
      state := state.(meta := meta);
    }

    method SetTargets(merged: PowerLimits)
      modifies `state
      ensures state == old(state).(requested := old(state).requested.(hasPower := true, power := merged),
                                   effective := old(state).effective.(hasPower := true, power := merged))
    {
      state := state.(requested := state.requested.(power := merged), effective := state.effective.(power := merged));
      state := state.(requested := state.requested.(hasPower := true), effective := state.effective.(hasPower := true));
    }

    method ApplyFanTable(name: string, incoming: Result) returns (status: Status, result: Result)
      modifies `state, `fail
      ensures Reply(Value(), status, result) == SetFanTable(old(Value()), name, incoming)
    {
      if name == "" {
        return InvalidArgument, incoming;
      }
      result := Started();
      status := Consume(FanSlot);
      if status != Ok {
        return status, SetDetail(result, "mock apply_fan_table failed");
      }
      var changed := state.requested.fanTable != name || state.effective.fanTable != name;
      status := CopyFanTable(name);
      if status != Ok {
        return;
      }
      result := result.(changed := changed);
      state := state.(meta := state.meta.(fanTable := LiveMock()));
      var meta := Finalize(state.meta);
      state := state.(meta := meta);
    }

    method ApplyFanBoost(enabled: bool, incoming: Result) returns (status: Status, result: Result)
      modifies `state, `fail
      ensures Reply(Value(), status, result) == SetBoost(old(Value()), enabled)
    {
      result := Started();
      status := Consume(BoostSlot);
      if status != Ok {
        return status, SetDetail(result, "mock apply_fan_boost failed");
      }
      var r, e := state.requested, state.effective;
      result := result.(changed := !r.hasBoost || !e.hasBoost || r.boost != enabled || e.boost != enabled);
      state := state.(requested := r.(hasBoost := true, boost := enabled),
                      effective := e.(hasBoost := true, boost := enabled));
      state := state.(meta := state.meta.(fanBoost := LiveMock()));
      var meta := Finalize(state.meta);
      state := state.(meta := meta);
    }
  }

  function NothingArmed(): Failures { Failures(Ok, Ok, Ok, Ok, Ok) }

  function AllCapabilities(): Capabilities { Capabilities(true, true, true, true, true, true, false, false, false) }

  function SeedTarget(): Target
  {
    Target("balanced", "M4T1", true, false, true,
           PowerLimits(OptByte(true, 55), OptByte(true, 95), OptByte(true, 125), OptByte(true, 10)))
  }

  function Seed(): Snapshot
  {
    var m := EmptyMeta().(profile := LiveMock(), fanTable := LiveMock(), fanBoost := LiveMock(), thermal := LiveMock());
    EmptySnapshot().(backendName := MockName(), selected := MockName(), execution := ExecutionAll(MockName()),
                     requested := SeedTarget(), effective := SeedTarget(),
                     thermal := Thermal(true, 61, true, 56, true, 2480, true, 2310, true, 6),
                     meta := Finalized(PowerFromLimits(m, Some(SeedTarget().power), LiveMock())))
  }
}
