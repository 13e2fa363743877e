// The compilers from validated input to write programs (src/core/fan/table-apply.c,
// src/core/power/limits.c, src/core/profile/mode-profile.c).
module PlanBuilders {
  import opened Types
  import opened Plans
  import opened EcMemory
  import opened FanTables

  // ----- fan tables

  function Ups(c: Curve): seq<byte> { seq(16, i requires 0 <= i < 16 => c[i].up) }
  function Downs(c: Curve): seq<byte> { seq(16, i requires 0 <= i < 16 => c[i].down) }
  function Duties(c: Curve): seq<byte> { seq(16, i requires 0 <= i < 16 => c[i].duty) }

  function TailStatus1(t: FanTable): byte { if t.activated then 1 else 0 }
  function TailStatus2(t: FanTable): byte { if t.respective then 1 else 0 }
  function TailControl(t: FanTable): byte
  {
    if !t.activated then 0 else if t.respective then 3 else 1
  }

  function FanHead(t: FanTable): seq<Action>
  {
    [Stage(FanThread), Stage(FanCpu)]
    + Column(CPU_UP_BASE, Ups(t.cpu), CpuUp)
    + Column(CPU_DOWN_BASE, Downs(t.cpu), CpuDown)
    + Column(CPU_DUTY_BASE, Duties(t.cpu), CpuDuty)
    + [Stage(FanGpu)]
    + Column(GPU_UP_BASE, Ups(t.gpu), GpuUp)
    + Column(GPU_DOWN_BASE, Downs(t.gpu), GpuDown)
    + Column(GPU_DUTY_BASE, Duties(t.gpu)[..13], GpuDuty)
  }

  function FanStatusTail(t: FanTable): seq<Action>
  {
    [Stage(FanTail),
     EcWrite(TABLE_STATUS1, TailStatus1(t), TableStatus1),
     EcWrite(TABLE_STATUS2, TailStatus2(t), TableStatus2)]
  }

  /** The program for a table: curve columns, then status bytes, then the control byte last. */
  function FanProgram(t: FanTable): (actions: seq<Action>)
    ensures |actions| == 100
  {
    FanHead(t) + FanStatusTail(t) + [EcWrite(TABLE_CONTROL, TailControl(t), TableControl)]
  }

  /** Each of the builder's six counting loops is one call of this loop. */
  method AppendColumn(plan: Plan, base: u16, values: seq<byte>, title: Title) returns (status: Status)
    requires plan.Valid() && base + |values| <= 0x1_0000
    requires |plan.Contents| + |values| <= MAX_ACTIONS
    modifies plan, plan.actions
    ensures plan.Valid() && status == Ok
    ensures plan.Contents == old(plan.Contents) + Column(base, values, title)
  {
    ghost var column := Column(base, values, title);
    var index := 0;
    while index < |values|
      invariant 0 <= index <= |values| && plan.Valid()
      invariant plan.Contents == old(plan.Contents) + column[..index]
    {
      status := plan.Append(EcWrite(base + index, values[index], title));
      if status != Ok {
        return;
      }
      assert column[..index + 1] == column[..index] + [column[index]];
      index := index + 1;
    }
    assert column[..index] == column;
    return Ok;
  }

  method AppendFanHead(t: FanTable, plan: Plan) returns (status: Status)
    requires plan.Valid() && plan.Contents == []
    modifies plan, plan.actions
    ensures plan.Valid() && status == Ok
    ensures plan.Contents == FanHead(t)
  {
    status := plan.Append(Stage(FanThread));
    status := plan.Append(Stage(FanCpu));
    assert plan.Contents == [Stage(FanThread), Stage(FanCpu)];
    status := AppendColumn(plan, CPU_UP_BASE, Ups(t.cpu), CpuUp);
    status := AppendColumn(plan, CPU_DOWN_BASE, Downs(t.cpu), CpuDown);
    status := AppendColumn(plan, CPU_DUTY_BASE, Duties(t.cpu), CpuDuty);
    status := plan.Append(Stage(FanGpu));
    status := AppendColumn(plan, GPU_UP_BASE, Ups(t.gpu), GpuUp);
    status := AppendColumn(plan, GPU_DOWN_BASE, Downs(t.gpu), GpuDown);
    status := AppendColumn(plan, GPU_DUTY_BASE, Duties(t.gpu)[..13], GpuDuty);
  }

  method BuildFanPlan(t: FanTable, plan: Plan) returns (status: Status)
    requires plan.Valid()
    modifies plan, plan.actions
    ensures plan.Valid()
    ensures status == ValidationStatus(t)
    ensures plan.Contents == if status == Ok then FanProgram(t) else old(plan.Contents)
  {
    status := Validate(t);
    if status != Ok {
      return;
    }
    plan.Reset();
    status := AppendFanHead(t, plan);
    status := plan.Append(Stage(FanTail));
    status := plan.Append(EcWrite(TABLE_STATUS1, TailStatus1(t), TableStatus1));
    status := plan.Append(EcWrite(TABLE_STATUS2, TailStatus2(t), TableStatus2));
    assert plan.Contents == FanHead(t) + FanStatusTail(t);
    status := plan.Append(EcWrite(TABLE_CONTROL, TailControl(t), TableControl));
  }

  // ----- power limits

  function PowerWrite(limits: PowerLimits, f: PowerField): seq<Action>
  {
    if limits.Get(f).present then [EcWrite(PowerAddress(f), limits.Get(f).value, PowerLimit(f))] else []
  }

  function PowerProgram(limits: PowerLimits): seq<Action>
  {
    [Stage(PowerStage)]
    + PowerWrite(limits, Pl1) + PowerWrite(limits, Pl2) + PowerWrite(limits, Pl4) + PowerWrite(limits, Tcc)
  }

  /** One `if (limits->field.present)` block. */
  method AppendLimit(limits: PowerLimits, f: PowerField, plan: Plan)
    requires plan.Valid() && |plan.Contents| < 100
    modifies plan, plan.actions
    ensures plan.Valid()
    ensures plan.Contents == old(plan.Contents) + PowerWrite(limits, f)
  {
    if limits.Get(f).present {
      var status := plan.Append(EcWrite(PowerAddress(f), limits.Get(f).value, PowerLimit(f)));
    }
  }

  method BuildPowerPlan(limits: PowerLimits, plan: Plan) returns (status: Status)
    requires plan.Valid()
    modifies plan, plan.actions
    ensures plan.Valid()
    ensures status == if limits.AnyPresent() then Ok else InvalidArgument
    ensures plan.Contents == if status == Ok then PowerProgram(limits) else old(plan.Contents)
  {
    if !limits.AnyPresent() {
      return InvalidArgument;
    }
    plan.Reset();
    status := plan.Append(Stage(PowerStage));
    AppendLimit(limits, Pl1, plan);
    AppendLimit(limits, Pl2, plan);
    AppendLimit(limits, Pl4, plan);
    AppendLimit(limits, Tcc, plan);
    status := Ok;
  }

  // ----- modes: stages only, no write is confirmed yet

  function ModeProgram(mode: Mode): seq<Action>
  {
    [Stage(ModeStart),
     Stage(ModeInspect),
     Stage(ModeIndexHint(mode)), Stage(ModeControlHint(mode)), Stage(ModeHelperHint(mode))]
  }

  method BuildModePlan(mode: Mode, plan: Plan) returns (status: Status)
    requires plan.Valid()
    modifies plan, plan.actions
    ensures plan.Valid() && status == Ok
    ensures plan.Contents == ModeProgram(mode)
  {
    plan.Reset();
    status := plan.Append(Stage(ModeStart));
    status := plan.Append(Stage(ModeInspect));
    status := plan.Append(Stage(ModeIndexHint(mode)));
    status := plan.Append(Stage(ModeControlHint(mode)));
    status := plan.Append(Stage(ModeHelperHint(mode)));
  }

  // ----- whole profile documents

  datatype ProfileDocument = ProfileDocument(
    hasMode: bool, mode: Mode,
    hasPower: bool, power: PowerLimits,
    hasFan: bool, fan: FanTable)

  function ModePart(d: ProfileDocument): seq<Action> { if d.hasMode then ModeProgram(d.mode) else [] }
  function PowerPart(d: ProfileDocument): seq<Action> { if d.hasPower then PowerProgram(d.power) else [] }
  function FanPart(d: ProfileDocument): seq<Action> { if d.hasFan then FanProgram(d.fan) else [] }

  ghost predicate Buildable(d: ProfileDocument)
  {
    && (d.hasMode || d.hasPower || d.hasFan)
    && (d.hasPower ==> d.power.AnyPresent())
    && (d.hasFan ==> ValidTable(d.fan))
  }

  /** The profile plan is exactly its parts in order, and the 128-slot array never overflows. */
  method BuildProfilePlan(d: ProfileDocument, plan: Plan) returns (status: Status)
    requires plan.Valid()
    modifies plan, plan.actions
    ensures plan.Valid()
    ensures status == Ok <==> Buildable(d)
    ensures status != Ok ==> status in {InvalidArgument, RangeError}
    ensures status == Ok ==> plan.Contents == ModePart(d) + PowerPart(d) + FanPart(d)
    ensures status == Ok ==> 0 < |plan.Contents| <= 110
  {
    plan.Reset();
    var part := new Plan();
    if d.hasMode {
      status := BuildModePlan(d.mode, part);
      if status != Ok { return; }
      status := plan.AppendAll(part);
      if status != Ok { return; }
    }
    assert plan.Contents == ModePart(d);
    if d.hasPower {
      status := BuildPowerPlan(d.power, part);
      if status != Ok { return; }
      status := plan.AppendAll(part);
      if status != Ok { return; }
    }
    assert plan.Contents == ModePart(d) + PowerPart(d);
    if d.hasFan {
      status := BuildFanPlan(d.fan, part);
      if status != Ok { return; }
      status := plan.AppendAll(part);
      if status != Ok { return; }
    }
    assert plan.Contents == ModePart(d) + PowerPart(d) + FanPart(d);
    if plan.count == 0 {
      return InvalidArgument;
    }
    return Ok;
  }
}
