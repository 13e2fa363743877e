// The ordered action list of include/lcc/plan.h and its builders' append operations
// (src/core/profile/plan.c).
module Plans {
  import opened Types

  const MAX_ACTIONS: nat := 128

  /** The fixed labels the builders attach to actions. */
  datatype Title =
    | FanThread | FanCpu | FanGpu | FanTail
    | CpuUp | CpuDown | CpuDuty | GpuUp | GpuDown | GpuDuty
    | TableStatus1 | TableStatus2 | TableControl
    | PowerStage | PowerLimit(field: PowerField)
    | ModeStart | ModeInspect | ModeIndexHint(mode: Mode) | ModeControlHint(mode: Mode) | ModeHelperHint(mode: Mode)
    | CustomEnable

  datatype Action =
    | Stage(title: Title)
    | CustomMode(enabled: bool, title: Title)
    | EcWrite(addr: u16, value: byte, title: Title)

  function ModeIndexLabel(mode: Mode): string
  {
    match mode
    case Gaming => "candidate: mode index write 0x07AB = 0x00 (gaming)"
    case Office => "candidate: mode index write 0x07AB = 0x01 (office)"
    case Turbo => "candidate: mode index write 0x07AB = 0x02 (turbo)"
    case Custom => "candidate: mode index write 0x07AB = 0x03 (custom)"
  }

  function ModeControlLabel(mode: Mode): string
  {
    match mode
    case Gaming => "candidate: clear 0x0751 TBME/UFME bits for gaming, but do not treat 0x751 as a literal mode byte"
    case Office => "candidate: clear 0x0751 TBME/UFME bits for office; office vs gaming likely differs outside 0x751"
    case Turbo => "candidate: set 0x0751 bit4 mask 0x10 (TBME) for turbo"
    case Custom => "candidate: set 0x0751 bit7 mask 0x80 (UFME) for custom"
  }

  function ModeHelperLabel(mode: Mode): string
  {
    match mode
    case Gaming => "candidate: compare 0x07B0..0x07B2 and 0x07C7 against office while switching"
    case Office => "candidate: compare 0x07B0..0x07B2 and 0x07C7 against gaming while switching"
    case Turbo => "candidate: inspect 0x07C7 helper bits while entering turbo"
    case Custom => "candidate: inspect 0x07C7 helper bits and custom profile slots 0x07B0..0x07B2"
  }

  function FanLabel(title: Title): string
  {
    match title
    case FanThread => "SetFanTableThread -> MyFanTableCtrl::SetFanTable (confirmed call edge)"
    case FanCpu => "FanTable_Manager1p5::SetEcFanTable_Cpu"
    case FanGpu => "FanTable_Manager1p5::SetEcFanTable_Gpu"
    case FanTail => "FanTable_Manager1p5::FinalizeTailBytes"
    case CpuUp => "cpu up temp"
    case CpuDown => "cpu down temp"
    case CpuDuty => "cpu duty"
    case GpuUp => "gpu up temp"
    case GpuDown => "gpu down temp"
    case GpuDuty => "gpu duty"
    case TableStatus1 => "fan table status1"
    case TableStatus2 => "fan table status2"
    case TableControl => "fan table control"
    case _ => "keep custom fan-control path enabled while programming table"
  }

  function PowerLabel(f: PowerField): string
  {
    match f
    case Pl1 => "PL1"
    case Pl2 => "PL2"
    case Pl4 => "PL4"
    case Tcc => "TccOffset"
  }

  function Label(title: Title): string
  {
    match title
    case PowerStage => "ModeProfile CPU power-limit writes"
    case PowerLimit(field) => PowerLabel(field)
    case ModeStart => "SetModeSwitchChangeThread -> candidate sequence"
    case ModeInspect => "candidate: inspect mode/profile bytes 0x7AB and 0x7B0..0x7B2"
    case ModeIndexHint(mode) => ModeIndexLabel(mode)
    case ModeControlHint(mode) => ModeControlLabel(mode)
    case ModeHelperHint(mode) => ModeHelperLabel(mode)
    case _ => FanLabel(title)
  }

  class Plan {
    const actions: array<Action>
    var count: nat
    ghost var Contents: seq<Action>

    ghost predicate Valid()
      reads this, actions
    {
      actions.Length == MAX_ACTIONS && count <= MAX_ACTIONS && Contents == actions[..count]
    }

    constructor ()
      ensures Valid() && fresh(actions)
      ensures Contents == []
    {
      actions := new Action[MAX_ACTIONS](_ => Stage(FanTail));
      count := 0;
      Contents := [];
    }

    method Reset()
      requires Valid()
      modifies this
      ensures Valid() && Contents == []
    {
      count := 0;
      Contents := [];
    }

    method Append(action: Action) returns (status: Status)
      requires Valid()
      modifies this, actions
      ensures Valid()
      ensures status == if |old(Contents)| < MAX_ACTIONS then Ok else BufferTooSmall
      ensures Contents == old(Contents) + if status == Ok then [action] else []
    {
      if count >= MAX_ACTIONS {
        return BufferTooSmall;
      }
      actions[count] := action;
      count := count + 1;
      Contents := Contents + [action];
      return Ok;
    }

    /** All or nothing: a source that does not fit changes nothing. */
    method AppendAll(source: Plan) returns (status: Status)
      requires Valid() && source.Valid()
      requires source != this && source.actions != actions
      modifies this, actions
      ensures Valid()
      ensures status == if |old(Contents)| + |source.Contents| <= MAX_ACTIONS then Ok else BufferTooSmall
      ensures Contents == old(Contents) + if status == Ok then source.Contents else []
    {
      if count + source.count > MAX_ACTIONS {
        return BufferTooSmall;
      }
      ghost var before := Contents;
      var index := 0;
      while index < source.count
        invariant index <= source.count && count == |before| + index && Valid() && source.Valid()
        invariant source.Contents == old(source.Contents)
        invariant Contents == before + source.Contents[..index]
      {
        actions[count] := source.actions[index];
        count := count + 1;
        Contents := Contents + [source.Contents[index]];
        index := index + 1;
      }
      assert source.Contents[..source.count] == source.Contents;
      return Ok;
    }
  }
}
