// The AMW0 backend as the object the daemon holds: fields updated in place, each operation proved
// against its function in Amw0Ops.
module Amw0Class {
  import opened Types
  import opened Plans
  import opened EcMemory
  import opened FanTables
  import opened PlanBuilders
  import opened Packets
  import opened Attributions
  import opened Backends
  import opened Amw0
  import opened Amw0Ops

  class Amw0Backend {
    const dryRun: bool
    var failAfter: nat
    var writeCount: nat
    var hasControl: bool
    var control: byte
    var shadow: Snapshot
    var ec: Memory  // the hardware behind the transport

    ghost function Value(): State
      reads this
    {
      State(dryRun, failAfter, writeCount, hasControl, control, shadow, ec)
    }

    /** `seed_shadow_state` over hardware in any state. */
    constructor (dryRun: bool, ec: Memory)
      ensures Value() == State(dryRun, 0, 0, false, 0, SeedShadow(), ec)
    {
      this.dryRun := dryRun;
      this.ec := ec;
      failAfter, writeCount, hasControl, control := 0, 0, false, 0;
      shadow := SeedShadow();
    }

    /** One EC write: count it, fail if injected, else print the packet and hand it to the firmware. */
    method WriteEcByte(addr: u16, value: byte, send: Send) returns (status: Status)
      modifies `writeCount, `ec
      ensures (Value(), status) == WriteByte(old(Value()), addr, value, send)
    {
      writeCount := writeCount + 1;
      if failAfter > 0 && writeCount >= failAfter {
        return IoError;
      }
      var packet := EcWritePacket(ROUTE_WKBC1, addr, value);
      var text;
      status, text := FormatExpr(packet, EXPR_MAX);
      if status != Ok || dryRun {
        return;
      }
      EcWriteLands(ec, ROUTE_WKBC1, addr, value);
      match send {
        case Landed =>
          ec := Firmware(ec, text);
        case Refused(error) =>
          status := error;
        case ReplyLost(error) =>
          ec := Firmware(ec, text);
          status := error;
      }
    }

    method CurrentModeControl(hw: Hardware) returns (current: byte)
      modifies `hasControl, `control
      ensures (Value(), current) == CurrentControl(old(Value()), hw)
    {
      if !dryRun && hw.readable(MODE_CONTROL) {
        current := ec[MODE_CONTROL];
        control := current;
        hasControl := true;
      } else if hasControl {
        current := control;
      } else {
        current := FallbackControl(shadow);
      }
    }

    method Commit(target: byte, mode: Mode)
      modifies `hasControl, `control, `shadow
      ensures Value() == Committed(old(Value()), target, mode)
    {
      control := target;
      hasControl := true;
      shadow := shadow.(requested := TargetWithControl(shadow.requested, target, mode),
                        effective := TargetWithControl(shadow.effective, target, mode));
      var meta := Finalize(shadow.meta.(profile := Cached(), fanBoost := Cached()));
      shadow := shadow.(meta := meta);
    }

    /** The checked writes of an operation in order: name the stage, write, and on a failure add the
        detail and stop. */
    method WriteSteps(steps: seq<Step>, hw: Hardware, changed: bool) returns (status: Status, result: Result)
      requires steps != []
      modifies `writeCount, `ec
      ensures var r := RunSteps(old(Value()), steps, hw);
        Value() == r.state && status == r.status && result == Report(old(Value()), steps, r, changed)
    {
      ghost var s0 := Value();
      result := Ready();
      var k := 0;
      while k < |steps|
        invariant 0 <= k <= |steps|
        invariant RunSteps(s0, steps[..k], hw) == Run(Value(), Ok, k)
        invariant result == if k == 0 then Ready() else SetStage(Ready(), steps[k - 1].stage)
      {
        assert steps[..k + 1] == steps[..k] + [steps[k]] && steps == steps[..k + 1] + steps[k + 1..];
        RunStepsSnoc(s0, steps[..k], steps[k], hw);
        result := SetStage(Ready(), steps[k].stage);
        status := WriteEcByte(steps[k].addr, steps[k].value, hw.send(k));
        if status != Ok {
          result := SetDetail(result, steps[k].detail);
          RunStepsFailed(s0, steps[..k + 1], steps[k + 1..], hw);
          return;
        }
        k := k + 1;
      }
      assert steps[..k] == steps;
      status := Ok;
      result := result.(changed := changed, hardwareWrite := !dryRun);
    }

    method ApplyMode(mode: Mode, hw: Hardware) returns (status: Status, result: Result)
      modifies this
      ensures Reply(Value(), status, result) == SetMode(old(Value()), hw, mode)
    {
      var changed := shadow.effective.profile != ModeName(mode);
      var current := CurrentModeControl(hw);
      var target := ModeControl(mode);
      if BoostBit(current) {
        target := WithBoost(target, true);
      }
      assert target == ModeTarget(mode, current);
      status, result := WriteSteps(ModeSteps(mode, target), hw, changed);
      if status == Ok {
        Commit(target, mode);
      }
    }

    method ApplyProfile(name: string, hw: Hardware, incoming: Result) returns (status: Status, result: Result)
      modifies this
      ensures Reply(Value(), status, result) == SetProfile(old(Value()), hw, name, incoming)
    {
      match AliasToMode(name) {
        case None => status, result := NotSupported, incoming;
        case Some(mode) => status, result := ApplyMode(mode, hw);
      }
    }

    method ApplyFanBoost(enabled: bool, hw: Hardware) returns (status: Status, result: Result)
      modifies this
      ensures Reply(Value(), status, result) == SetBoost(old(Value()), hw, enabled)
    {
      var current := CurrentModeControl(hw);
      var target := WithBoost(current, enabled);
      var changed := !shadow.effective.hasBoost || shadow.effective.boost != enabled || current != target;
      status, result := WriteSteps(BoostSteps(target), hw, changed);
      if status == Ok {
        Commit(target, DecodeMode(target));
      }
    }

    method ApplyPowerLimits(limits: PowerLimits, hw: Hardware, incoming: Result)
      returns (status: Status, result: Result)
      modifies this
      ensures Reply(Value(), status, result) == SetPower(old(Value()), hw, limits, incoming)
    {
      if !limits.AnyPresent() {
        return InvalidArgument, incoming;
      }
      var merged := shadow.effective.power.Overwrite(limits);
      var changed := !shadow.effective.hasPower || shadow.effective.power != merged;
      status, result := WriteSteps(PowerSteps(limits), hw, changed);
      if status == Ok {
        shadow := shadow.(requested := shadow.requested.(hasPower := true, power := merged),
                          effective := shadow.effective.(hasPower := true, power := merged));
        var meta := Finalize(PowerFromLimits(shadow.meta, Some(merged), Cached()));
        shadow := shadow.(meta := meta);
      }
    }

    /** `apply_plan_ec_write`: one more write of a plan whose writes have all succeeded so far. */
    method WritePlanByte(step: Step, k: nat, hw: Hardware, ghost s0: State, ghost steps: seq<Step>)
      returns (status: Status, result: Result)
      requires RunSteps(s0, steps, hw) == Run(Value(), Ok, k) && k == |steps|
      modifies `writeCount, `ec
      ensures RunSteps(s0, steps + [step], hw) == Run(Value(), status, if status == Ok then k + 1 else k)
      ensures result == if status == Ok then SetStage(Ready(), step.stage)
                        else SetDetail(SetStage(Ready(), step.stage), FanFailed())
    {
      RunStepsSnoc(s0, steps, step, hw);
      result := SetStage(Ready(), step.stage);
      status := WriteEcByte(step.addr, step.value, hw.send(k));
      if status != Ok {
        result := SetDetail(result, FanFailed());
      }
    }

    /** One action of a plan whose writes have all succeeded so far. */
    method ApplyAction(action: Action, stage: string, k: nat, hw: Hardware, ghost s0: State, ghost steps: seq<Step>)
      returns (status: Status, next: nat, nextStage: string, result: Result)
      requires RunSteps(s0, steps, hw) == Run(Value(), Ok, k) && k == |steps|
      modifies `writeCount, `ec
      ensures nextStage == if action.Stage? then Label(action.title) else stage
      ensures var after := steps + ActionSteps(action, stage); var r := RunSteps(s0, after, hw);
        && Value() == r.state && status == r.status && next == r.done
        && (status != Ok ==> result == SetDetail(SetStage(Ready(), after[r.done].stage), FanFailed()))
        && (status == Ok && action.EcWrite? ==> result == SetStage(Ready(), stage))
    {
      status, next, nextStage, result := Ok, k, stage, Ready();
      match action {
        case Stage(title) =>
          nextStage := Label(title);
          result := SetStage(Ready(), nextStage);
          assert steps + [] == steps;
        case CustomMode(enabled, _) =>
          assert steps + [] == steps;
          if enabled {
            ghost var both := ActionSteps(action, stage);
            assert both == [both[0]] + [both[1]];
            assert steps + both == steps + [both[0]] + [both[1]];
            status, result := WritePlanByte(Step(MODE_INDEX, 3, "custom-enable", FanFailed()), k, hw, s0, steps);
            if status != Ok {
              FailsWithPrefix(s0, steps + [both[0]], steps + both, hw);
              return;
            }
            status, result := WritePlanByte(Step(MODE_CONTROL, 0xA0, "custom-enable", FanFailed()), k + 1, hw, s0,
                                            steps + [both[0]]);
            next := if status == Ok then k + 2 else k + 1;
          }
        case EcWrite(addr, value, _) =>
          status, result := WritePlanByte(Step(addr, value, stage, FanFailed()), k, hw, s0, steps);
          next := if status == Ok then k + 1 else k;
      }
    }

    /** `apply_fan_plan`: run a plan's actions in order, each write under the last stage label seen. */
    method ApplyFanPlan(plan: Plan, hw: Hardware) returns (status: Status, result: Result)
      requires plan.Valid() && plan.Contents != [] && Last(plan.Contents).EcWrite?
      modifies `writeCount, `ec
      ensures PlanSteps(plan.Contents) != []
      ensures PlanOutcome(RunSteps(old(Value()).(writeCount := 0), PlanSteps(plan.Contents), hw),
                          PlanSteps(plan.Contents),
                          Value(), status, result)
    {
      writeCount := 0;
      ghost var s0, all := Value(), plan.Contents;
      LastWrite(all);
      ghost var steps := [];
      var currentStage := "fan-apply";
      var k, index := 0, 0;
      status, result := Ok, Ready();
      while index < plan.count
        invariant 0 <= index <= plan.count && status == Ok
        invariant steps == PlanSteps(all[..index]) && k == |steps|
        invariant currentStage == CurrentStage(all[..index])
        invariant RunSteps(s0, steps, hw) == Run(Value(), Ok, k)
        invariant index > 0 && all[index - 1].EcWrite? ==> result == SetStage(Ready(), currentStage)
      {
        PlanStepsExtend(all, index);
        ghost var after := steps + ActionSteps(all[index], currentStage);
        status, k, currentStage, result := ApplyAction(plan.actions[index], currentStage, k, hw, s0, steps);
        if status != Ok {
          FailedPlan(s0, all, index + 1, hw);
          return;
        }
        steps := after;
        index := index + 1;
      }
      assert all[..index] == all;
    }

    /** `amw0_apply_fan_table` */
    method ApplyFanTable(name: string, hw: Hardware, incoming: Result) returns (status: Status, result: Result)
      modifies this
      ensures Reply(Value(), status, result) == SetFanTable(old(Value()), hw, name, incoming)
    {
      if name == "" {
        return InvalidArgument, incoming;
      }
      match hw.load(name) {
        case Missing(error) =>
          return error, SetDetail(Ready(), "fan table fixture could not be loaded");
        case Found(table) =>
          var plan := new Plan();
          status := BuildFanPlan(table, plan);
          if status != Ok {
            return status, SetDetail(Ready(), "fan table could not be translated into an apply plan");
          }
          PlanStepsExist(table);
          var changed := shadow.effective.fanTable != table.name;
          PlanStepsDetail(FanProgram(table));
          status, result := ApplyFanPlan(plan, hw);
          if status != Ok {
            return;
          }
          shadow := shadow.(requested := shadow.requested.(fanTable := table.name),
                            effective := shadow.effective.(fanTable := table.name));
          var meta := Finalize(shadow.meta.(fanTable := Cached()));
          shadow := shadow.(meta := meta);
          result := result.(changed := changed, hardwareWrite := !dryRun);
      }
    }

    // ----- reading

    method ReadPowerField(f: PowerField, hw: Hardware, otherwise: OptByte) returns (value: OptByte, live: bool)
      ensures value == ReadField(Value(), hw, f, otherwise) && live == FieldLive(Value(), hw, f)
    {
      value, live := otherwise, false;
      if !dryRun && hw.readable(PowerAddress(f)) {
        var raw := ec[PowerAddress(f)];
        if Plausible(f, raw) {
          value, live := OptByte(true, raw), true;
        }
      }
    }

    ghost predicate SameHardware(s0: State)
      reads this
    {
      s0.dryRun == dryRun && s0.ec == ec && s0.shadow == shadow
    }

    /** The control byte, when readable; reading it is remembered. */
    method ReadControl(hw: Hardware) returns (live: bool, raw: byte)
      modifies `control, `hasControl
      ensures live == Live(old(Value()), hw, MODE_CONTROL) && raw == ec[MODE_CONTROL]
      ensures Value() == Noted(old(Value()), hw)
    {
      live, raw := !dryRun && hw.readable(MODE_CONTROL), ec[MODE_CONTROL];
      if live {
        control, hasControl := raw, true;
      }
    }

    /** The power fields of both targets after the live bytes, their marks, and whether any was live. */
    method ReadPowerFields(requested: PowerLimits, effective: PowerLimits, hw: Hardware, ghost s0: State)
      returns (r: PowerLimits, e: PowerLimits, fields: PowerAttribution, live: bool)
      requires SameHardware(s0)
      ensures r == ReadPower(s0, hw, requested) && e == ReadPower(s0, hw, effective)
      ensures fields == PowerAttribution(FieldReadback(s0, hw, Pl1), FieldReadback(s0, hw, Pl2),
                                         FieldReadback(s0, hw, Pl4), FieldReadback(s0, hw, Tcc))
      ensures live == (FieldLive(s0, hw, Pl1) || FieldLive(s0, hw, Pl2) || FieldLive(s0, hw, Pl4) ||
                       FieldLive(s0, hw, Tcc))
    {
      var was := shadow.effective.power;
      var pl1, live1 := ReadPowerField(Pl1, hw, requested.pl1);
      var pl2, live2 := ReadPowerField(Pl2, hw, requested.pl2);
      var pl4, live4 := ReadPowerField(Pl4, hw, requested.pl4);
      var tcc, liveTcc := ReadPowerField(Tcc, hw, requested.tcc);
      r := PowerLimits(pl1, pl2, pl4, tcc);
      e := PowerLimits(if live1 then pl1 else effective.pl1, if live2 then pl2 else effective.pl2,
                       if live4 then pl4 else effective.pl4, if liveTcc then tcc else effective.tcc);
      fields := PowerAttribution(Readback(live1, !live1 && was.pl1.present), Readback(live2, !live2 && was.pl2.present),
                                 Readback(live4, !live4 && was.pl4.present),
                                 Readback(liveTcc, !liveTcc && was.tcc.present));
      live := live1 || live2 || live4 || liveTcc;
    }

    method ReadThermals(was: Thermal, hw: Hardware, ghost s0: State) returns (thermal: Thermal, live: bool, cache: bool)
      requires SameHardware(s0) && was == shadow.thermal && !dryRun
      ensures thermal == ReadThermal(s0, hw, was)
      ensures live == AnyThermalLive(s0, hw) && cache == AnyThermalCached(s0, hw)
    {
      thermal := was;
      var cpuLive := hw.readable(CPUT) && ec[CPUT] > 0;
      var gpuLive := hw.readable(PCHT) && ec[PCHT] > 0;
      var levelLive := hw.readable(FFAN);
      cache := (was.hasCpuTemp && !cpuLive) || (was.hasGpuTemp && !gpuLive) || was.hasCpuFan || was.hasGpuFan
        || (was.hasVendorLevel && !levelLive);
      if cpuLive {
        thermal := thermal.(hasCpuTemp := true, cpuTemp := ec[CPUT]);
      }
      if gpuLive {
        thermal := thermal.(hasGpuTemp := true, gpuTemp := ec[PCHT]);
      }
      if levelLive {
        thermal := thermal.(hasVendorLevel := true, vendorLevel := ec[FFAN] % 16);
      }
      live := cpuLive || gpuLive || levelLive;
    }

    method ReadMarks(live: bool, fields: PowerAttribution, thermalLive: bool, thermalCache: bool, hw: Hardware,
                     ghost s0: State)
      returns (meta: Meta)
      requires SameHardware(s0) && live == Live(s0, hw, MODE_CONTROL)
      requires fields == PowerAttribution(FieldReadback(s0, hw, Pl1), FieldReadback(s0, hw, Pl2),
                                          FieldReadback(s0, hw, Pl4), FieldReadback(s0, hw, Tcc))
      requires thermalLive == AnyThermalLive(s0, hw) && thermalCache == AnyThermalCached(s0, hw)
      ensures meta == Finalized(RawMeta(s0, hw))
    {
      var was := shadow.effective;
      meta := Finalize(Meta("", "", Readback(live, !live && was.profile != ""), Readback(false, was.fanTable != ""),
                            Readback(live, !live && was.hasBoost), Unattributed(), fields,
                                Readback(thermalLive, thermalCache)));
    }

    /** A dry run publishes the shadow with everything marked as cache. */
    method ReadDry() returns (snapshot: Snapshot)
      requires dryRun
      ensures forall hw: Hardware :: snapshot == ReadSnapshot(Value(), hw)
    {
      var was := shadow.effective;
      var fields := PowerFromLimits(shadow.meta, if was.power.AnyPresent() then Some(was.power) else None,
                                    Cached()).fields;
      var meta := Finalize(Meta("", "", Readback(false, was.profile != ""), Readback(false, was.fanTable != ""),
                                Readback(false, was.hasBoost), Unattributed(), fields,
                                Readback(false, shadow.thermal.AnyPresent())));
      snapshot := shadow.(backendName := "amw0", selected := "amw0", fallbackReason := "", meta := meta);
    }

    method ReadState(hw: Hardware) returns (status: Status, snapshot: Snapshot, result: Result)
      modifies this
      ensures ReadReply(Value(), status, snapshot, result) == Read(old(Value()), hw)
    {
      if dryRun {
        snapshot := ReadDry();
        return Ok, snapshot, Ready();
      }
      var live;
      snapshot, live := ReadLive(hw);
      shadow := snapshot;
      status := if live then Ok else NotFound;
      result := if live then Ready() else SetDetail(Ready(), NoLiveValues());
    }

    method ReadLive(hw: Hardware) returns (snapshot: Snapshot, live: bool)
      requires !dryRun
      modifies `control, `hasControl
      ensures snapshot == ReadSnapshot(old(Value()), hw) && live == AnyLive(old(Value()), hw)
      ensures Value() == Noted(old(Value()), hw)
    {
      ghost var s0 := Value();
      var profileLive, raw := ReadControl(hw);
      var requested, effective := shadow.requested, shadow.effective;
      if profileLive {
        requested := TargetWithControl(requested, raw, DecodeMode(raw));
        effective := TargetWithControl(effective, raw, DecodeMode(raw));
      }
      var requestedPower, effectivePower, fields, powerLive :=
        ReadPowerFields(shadow.requested.power, shadow.effective.power, hw, s0);
      requested := requested.(power := requestedPower, hasPower := requestedPower.AnyPresent());
      effective := effective.(power := effectivePower, hasPower := requestedPower.AnyPresent());
      var thermal, thermalLive, thermalCache := ReadThermals(shadow.thermal, hw, s0);
      var meta := ReadMarks(profileLive, fields, thermalLive, thermalCache, hw, s0);
      snapshot := Published(shadow, requested, effective, thermal, meta);
      live := profileLive || powerLive || thermalLive;
    }
  }

  function Last<T>(s: seq<T>): T
    requires s != []
  {
    s[|s| - 1]
  }

  /** The reported end of a write sequence. */
  ghost predicate PlanOutcome(r: Run, steps: seq<Step>, state: State, status: Status, result: Result)
    requires steps != [] && r.done <= |steps| && (r.status == Ok <==> r.done == |steps|)
  {
    && state == r.state && status == r.status
    && result == if status == Ok then SetStage(Ready(), Last(steps).stage)
                 else SetDetail(SetStage(Ready(), steps[r.done].stage), FanFailed())
  }

  lemma PlanStepsExtend(actions: seq<Action>, n: nat)
    requires n < |actions|
    ensures PlanSteps(actions[..n + 1]) == PlanSteps(actions[..n]) + ActionSteps(actions[n], CurrentStage(actions[..n]))
    ensures CurrentStage(actions[..n + 1]) ==
      match actions[n]
      case Stage(title) => Label(title)
      case _ => CurrentStage(actions[..n])
  {
    assert actions[..n + 1][..n] == actions[..n];
  }

  lemma LastWrite(actions: seq<Action>)
    requires actions != [] && Last(actions).EcWrite?
    ensures PlanSteps(actions) != [] && Last(PlanSteps(actions)).stage == CurrentStage(actions)
  {
  }

  lemma {:induction false} PlanStepsDetail(actions: seq<Action>)
    ensures forall i | 0 <= i < |PlanSteps(actions)| :: PlanSteps(actions)[i].detail == FanFailed()
  {
    if actions != [] {
      PlanStepsDetail(actions[..|actions| - 1]);
    }
  }

  /** Once a prefix of the writes has failed, the whole sequence ends the same way. */
  lemma FailsWithPrefix(s: State, prefix: seq<Step>, whole: seq<Step>, hw: Hardware)
    requires prefix <= whole && RunSteps(s, prefix, hw).status != Ok
    ensures RunSteps(s, whole, hw) == RunSteps(s, prefix, hw)
  {
    RunStepsFailed(s, prefix, whole[|prefix|..], hw);
    assert whole == prefix + whole[|prefix|..];
  }

  lemma FailedPlan(s: State, actions: seq<Action>, n: nat, hw: Hardware)
    requires n <= |actions| && RunSteps(s, PlanSteps(actions[..n]), hw).status != Ok
    ensures var r := RunSteps(s, PlanSteps(actions[..n]), hw);
      && RunSteps(s, PlanSteps(actions), hw) == r && r.done < |PlanSteps(actions)|
      && PlanSteps(actions)[r.done] == PlanSteps(actions[..n])[r.done]
  {
    PlanStepsPrefix(actions, n);
    FailsWithPrefix(s, PlanSteps(actions[..n]), PlanSteps(actions), hw);
  }

  lemma {:induction false} PlanStepsPrefix(actions: seq<Action>, n: nat)
    requires n <= |actions|
    ensures PlanSteps(actions[..n]) <= PlanSteps(actions)
  {
    if n < |actions| {
      var front := actions[..|actions| - 1];
      PlanStepsPrefix(front, n);
      assert front[..n] == actions[..n];
    } else {
      assert actions[..n] == actions;
    }
  }

  function SeedShadow(): Snapshot
  {
    var target := EmptyTarget().(profile := "office", fanTable := "system-default");
    EmptySnapshot().(backendName := "amw0", selected := "amw0", execution := ExecutionAll("amw0"),
                    requested := target, effective := target,
                    meta := Finalized(EmptyMeta().(profile := Cached(), fanTable := Cached())))
  }
}
