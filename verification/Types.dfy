// The values every layer of lccd shares: status codes, capacity-limited C text, power limits,
// the published state snapshot and the backend result (include/lcc/*.h).
module Types {

  type byte = b: int | 0 <= b < 0x100
  type u16 = w: int | 0 <= w < 0x1_0000
  type u32 = w: int | 0 <= w < 0x1_0000_0000

  /** The contents of a `char[N]` buffer: at most N - 1 characters before the terminator. */
  type Text32 = s: string | |s| < 32
  type Text64 = s: string | |s| < 64
  type Text96 = s: string | |s| < 96
  type Text192 = s: string | |s| < 192

  datatype Status =
    | Ok
    | InvalidArgument
    | IoError
    | NotFound
    | Permission
    | ParseError
    | RangeError
    | NotSupported
    | Unimplemented
    | BufferTooSmall

  type Failure = s: Status | s != Ok witness IoError

  function StatusText(status: Status): Text32
  {
    match status
    case Ok => "ok"
    case InvalidArgument => "invalid argument"
    case IoError => "io error"
    case NotFound => "not found"
    case Permission => "permission denied"
    case ParseError => "parse error"
    case RangeError => "value out of range"
    case NotSupported => "not supported"
    case Unimplemented => "not implemented"
    case BufferTooSmall => "buffer too small"
  }

  datatype Option<+T> = None | Some(value: T)

  datatype Mode = Gaming | Office | Turbo | Custom

  function ModeName(mode: Mode): (name: Text32)
  {
    match mode
    case Gaming => "gaming"
    case Office => "office"
    case Turbo => "turbo"
    case Custom => "custom"
  }

  function ModeFromName(name: string): Option<Mode>
  {
    if name == "gaming" then Some(Gaming)
    else if name == "office" then Some(Office)
    else if name == "turbo" then Some(Turbo)
    else if name == "custom" then Some(Custom)
    else None
  }

  // ----- power limits

  /** The value byte of an absent field is meaningless, but it is stored and copied. */
  datatype OptByte = OptByte(present: bool, value: byte)

  const ABSENT := OptByte(false, 0)

  datatype PowerField = Pl1 | Pl2 | Pl4 | Tcc

  datatype PowerLimits = PowerLimits(pl1: OptByte, pl2: OptByte, pl4: OptByte, tcc: OptByte) {
    function Get(f: PowerField): OptByte
    {
      match f
      case Pl1 => pl1
      case Pl2 => pl2
      case Pl4 => pl4
      case Tcc => tcc
    }

    predicate AnyPresent() {
      pl1.present || pl2.present || pl4.present || tcc.present
    }

    /** Field-wise overwrite by the present fields of `update`. */
    function Overwrite(update: PowerLimits): PowerLimits
    {
      PowerLimits(
        if update.pl1.present then update.pl1 else pl1,
        if update.pl2.present then update.pl2 else pl2,
        if update.pl4.present then update.pl4 else pl4,
        if update.tcc.present then update.tcc else tcc)
    }
  }

  const NO_LIMITS := PowerLimits(ABSENT, ABSENT, ABSENT, ABSENT)

  // ----- published state

  datatype Target = Target(
    profile: Text64,
    fanTable: Text64,
    hasBoost: bool,
    boost: bool,
    hasPower: bool,
    power: PowerLimits)

  function EmptyTarget(): Target { Target("", "", false, false, false, NO_LIMITS) }

  datatype Thermal = Thermal(
    hasCpuTemp: bool, cpuTemp: byte,
    hasGpuTemp: bool, gpuTemp: byte,
    hasCpuFan: bool, cpuFan: u16,
    hasGpuFan: bool, gpuFan: u16,
    hasVendorLevel: bool, vendorLevel: byte)
  {
    predicate AnyPresent() {
      hasCpuTemp || hasGpuTemp || hasCpuFan || hasGpuFan || hasVendorLevel
    }
  }

  const NO_THERMAL := Thermal(false, 0, false, 0, false, 0, false, 0, false, 0)

  datatype TransactionState = Idle | Pending | Failed

  datatype Transaction = Transaction(
    state: TransactionState,
    operation: Text32,
    stage: Text96,
    hasPending: bool,
    pending: Target,
    lastError: Status)

  function NoTransaction(): Transaction { Transaction(Idle, "", "", false, EmptyTarget(), Ok) }

  datatype Execution = Execution(
    readState: Text32,
    applyProfile: Text32,
    applyMode: Text32,
    applyPower: Text32,
    applyFanTable: Text32,
    applyFanBoost: Text32)

  function NoExecution(): Execution { Execution("", "", "", "", "", "") }

  function ExecutionAll(name: Text32): Execution
  {
    Execution(name, name, name, name, name, name)
  }

  datatype Attribution = Attribution(source: Text32, freshness: Text32) {
    predicate Given() {
      source != "" || freshness != ""
    }
  }

  function Unattributed(): Attribution { Attribution("", "") }
  function Cached(): Attribution { Attribution("cache", "cache") }
  function Mixed(): Attribution { Attribution("mixed", "mixed") }

  datatype PowerAttribution = PowerAttribution(
    pl1: Attribution, pl2: Attribution, pl4: Attribution, tcc: Attribution)
  {
    function Get(f: PowerField): Attribution
    {
      match f
      case Pl1 => pl1
      case Pl2 => pl2
      case Pl4 => pl4
      case Tcc => tcc
    }
  }

  function NoPowerAttribution(): PowerAttribution
  {
    PowerAttribution(Unattributed(), Unattributed(), Unattributed(), Unattributed())
  }

  datatype Meta = Meta(
    source: Text32,
    freshness: Text32,
    profile: Attribution,
    fanTable: Attribution,
    fanBoost: Attribution,
    power: Attribution,
    fields: PowerAttribution,
    thermal: Attribution)

  function EmptyMeta(): Meta
  {
    Meta("", "", Unattributed(), Unattributed(), Unattributed(), Unattributed(), NoPowerAttribution(), Unattributed())
  }

  datatype LastApply = LastApply(
    stage: Text96,
    backend: Text32,
    hasTarget: bool,
    target: Target,
    hasHardwareWrite: bool,
    hardwareWrite: bool,
    error: Status)

  function NoLastApply(): LastApply { LastApply("", "", false, EmptyTarget(), false, false, Ok) }

  datatype Snapshot = Snapshot(
    backendName: Text32,
    selected: Text32,
    fallbackReason: Text192,
    execution: Execution,
    hardwareWrite: bool,
    requested: Target,
    effective: Target,
    meta: Meta,
    lastApply: LastApply,
    transaction: Transaction,
    thermal: Thermal)

  function EmptySnapshot(): Snapshot
  {
    Snapshot("", "", "", NoExecution(), false, EmptyTarget(), EmptyTarget(), EmptyMeta(), NoLastApply(),
             NoTransaction(), NO_THERMAL)
  }

  // ----- backends

  datatype Capabilities = Capabilities(
    canRead: bool,
    canProfile: bool,
    canMode: bool,
    canPower: bool,
    canFanTable: bool,
    canFanBoost: bool,
    hasPlatformProfile: bool,
    hasPowercap: bool,
    needsReboot: bool)

  datatype Result = Result(
    changed: bool,
    hardwareWrite: bool,
    rebootRequired: bool,
    stage: Text96,
    executor: Text32,
    detail: Text192)

  function ResetResult(): Result { Result(false, false, false, "", "", "") }

  // ----- C text

  function Min(a: int, b: int): int { if a < b then a else b }

  /** What `snprintf(buffer, capacity, "%s", text)` leaves in the buffer. */
  function Truncate(text: string, capacity: nat): (kept: string)
    requires capacity > 0
    ensures |kept| == Min(|text|, capacity - 1)
    ensures kept <= text
  {
    text[..Min(|text|, capacity - 1)]
  }

  function SetStage(r: Result, stage: string): (r': Result)
    ensures stage != "" && |stage| < 96 ==> r' == r.(stage := stage)
    ensures stage == "" ==> r' == r
  {
    if stage == "" then r else r.(stage := Truncate(stage, 96))
  }

  function SetExecutor(r: Result, name: string): (r': Result)
    ensures name != "" && |name| < 32 ==> r' == r.(executor := name)
    ensures name == "" ==> r' == r
  {
    if name == "" then r else r.(executor := Truncate(name, 32))
  }

  function SetDetail(r: Result, detail: string): Result
  {
    if detail == "" then r else r.(detail := Truncate(detail, 192))
  }
}
