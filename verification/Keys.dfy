// The member names of the published state (the format strings of src/core/state/model.c).
module Keys {

  /** Names of the published object itself, of its routes and supports, of targets and their attribution, and of the
      transaction and thermal details. */
  datatype Key = Top(top: TopKey) | Route(route: RouteKey) | Field(field: FieldKey) | Detail(detail: DetailKey)

  datatype TopKey =
    | ServiceKey | BackendKey | BackendSelectedKey | BackendFallbackReasonKey | ExecutionKey | HardwareWriteKey
    | SupportKey | RequestedKey | EffectiveKey | EffectiveMetaKey | PendingKey | LastApplyStageKey
    | LastApplyBackendKey | LastApplyErrorKey | LastApplyHardwareWriteKey | LastApplyTargetKey | TransactionKey
    | ThermalKey

  datatype RouteKey =
    | ReadStateKey | ApplyProfileKey | ApplyModeKey | ApplyPowerLimitsKey | ApplyFanTableKey | ApplyFanBoostKey
    | PlatformProfileKey | PowercapKey | MuxRebootRequiredKey

  datatype FieldKey =
    | ProfileKey | FanTableKey | FanBoostKey | PowerKey | Pl1Key | Pl2Key | Pl4Key | TccOffsetKey | SourceKey
    | FreshnessKey | FieldsKey | ComponentsKey

  datatype DetailKey =
    | StateKey | OperationKey | StageKey | LastErrorKey | CpuTempCKey | GpuTempCKey | CpuFanRpmKey | GpuFanRpmKey
    | VendorFanLevelKey

  predicate WordChar(c: char)
  {
    'a' <= c <= 'z' || '0' <= c <= '9' || c == '_'
  }

  predicate Word(s: string)
  {
    s != "" && forall i | 0 <= i < |s| :: WordChar(s[i])
  }

  function TopText(key: TopKey): string
  {
    match key
    case ServiceKey => "service"
    case BackendKey => "backend"
    case BackendSelectedKey => "backend_selected"
    case BackendFallbackReasonKey => "backend_fallback_reason"
    case ExecutionKey => "execution"
    case HardwareWriteKey => "hardware_write"
    case SupportKey => "support"
    case RequestedKey => "requested"
    case EffectiveKey => "effective"
    case EffectiveMetaKey => "effective_meta"
    case PendingKey => "pending"
    case LastApplyStageKey => "last_apply_stage"
    case LastApplyBackendKey => "last_apply_backend"
    case LastApplyErrorKey => "last_apply_error"
    case LastApplyHardwareWriteKey => "last_apply_hardware_write"
    case LastApplyTargetKey => "last_apply_target"
    case TransactionKey => "transaction"
    case ThermalKey => "thermal"
  }

  function RouteText(key: RouteKey): string
  {
    match key
    case ReadStateKey => "read_state"
    case ApplyProfileKey => "apply_profile"
    case ApplyModeKey => "apply_mode"
    case ApplyPowerLimitsKey => "apply_power_limits"
    case ApplyFanTableKey => "apply_fan_table"
    case ApplyFanBoostKey => "apply_fan_boost"
    case PlatformProfileKey => "platform_profile"
    case PowercapKey => "powercap"
    case MuxRebootRequiredKey => "mux_reboot_required"
  }

  function FieldText(key: FieldKey): string
  {
    match key
    case ProfileKey => "profile"
    case FanTableKey => "fan_table"
    case FanBoostKey => "fan_boost"
    case PowerKey => "power"
    case Pl1Key => "pl1"
    case Pl2Key => "pl2"
    case Pl4Key => "pl4"
    case TccOffsetKey => "tcc_offset"
    case SourceKey => "source"
    case FreshnessKey => "freshness"
    case FieldsKey => "fields"
    case ComponentsKey => "components"
  }

  function DetailText(key: DetailKey): string
  {
    match key
    case StateKey => "state"
    case OperationKey => "operation"
    case StageKey => "stage"
    case LastErrorKey => "last_error"
    case CpuTempCKey => "cpu_temp_c"
    case GpuTempCKey => "gpu_temp_c"
    case CpuFanRpmKey => "cpu_fan_rpm"
    case GpuFanRpmKey => "gpu_fan_rpm"
    case VendorFanLevelKey => "vendor_fan_level"
  }

  function KeyText(key: Key): string
  {
    match key
    case Top(top) => TopText(top)
    case Route(route) => RouteText(route)
    case Field(field) => FieldText(field)
    case Detail(detail) => DetailText(detail)
  }

  function TopLength(key: TopKey): nat
  {
    match key
    case ServiceKey => 7
    case BackendKey => 7
    case BackendSelectedKey => 16
    case BackendFallbackReasonKey => 23
    case ExecutionKey => 9
    case HardwareWriteKey => 14
    case SupportKey => 7
    case RequestedKey => 9
    case EffectiveKey => 9
    case EffectiveMetaKey => 14
    case PendingKey => 7
    case LastApplyStageKey => 16
    case LastApplyBackendKey => 18
    case LastApplyErrorKey => 16
    case LastApplyHardwareWriteKey => 25
    case LastApplyTargetKey => 17
    case TransactionKey => 11
    case ThermalKey => 7
  }

  function RouteLength(key: RouteKey): nat
  {
    match key
    case ReadStateKey => 10
    case ApplyProfileKey => 13
    case ApplyModeKey => 10
    case ApplyPowerLimitsKey => 18
    case ApplyFanTableKey => 15
    case ApplyFanBoostKey => 15
    case PlatformProfileKey => 16
    case PowercapKey => 8
    case MuxRebootRequiredKey => 19
  }

  function FieldLength(key: FieldKey): nat
  {
    match key
    case ProfileKey => 7
    case FanTableKey => 9
    case FanBoostKey => 9
    case PowerKey => 5
    case Pl1Key => 3
    case Pl2Key => 3
    case Pl4Key => 3
    case TccOffsetKey => 10
    case SourceKey => 6
    case FreshnessKey => 9
    case FieldsKey => 6
    case ComponentsKey => 10
  }

  function DetailLength(key: DetailKey): nat
  {
    match key
    case StateKey => 5
    case OperationKey => 9
    case StageKey => 5
    case LastErrorKey => 10
    case CpuTempCKey => 10
    case GpuTempCKey => 10
    case CpuFanRpmKey => 11
    case GpuFanRpmKey => 11
    case VendorFanLevelKey => 16
  }

  function KeyLength(key: Key): nat
  {
    match key
    case Top(top) => TopLength(top)
    case Route(route) => RouteLength(route)
    case Field(field) => FieldLength(field)
    case Detail(detail) => DetailLength(detail)
  }

  /** With the length, the first, third and last but one character tell the names apart. */
  datatype Mark = Mark(first: char, third: char, penultimate: char)

  function TopMark(key: TopKey): Mark
  {
    match key
    case ServiceKey => Mark('s', 'r', 'c')
    case BackendKey => Mark('b', 'c', 'n')
    case BackendSelectedKey => Mark('b', 'c', 'e')
    case BackendFallbackReasonKey => Mark('b', 'c', 'o')
    case ExecutionKey => Mark('e', 'e', 'o')
    case HardwareWriteKey => Mark('h', 'r', 't')
    case SupportKey => Mark('s', 'p', 'r')
    case RequestedKey => Mark('r', 'q', 'e')
    case EffectiveKey => Mark('e', 'f', 'v')
    case EffectiveMetaKey => Mark('e', 'f', 't')
    case PendingKey => Mark('p', 'n', 'n')
    case LastApplyStageKey => Mark('l', 's', 'g')
    case LastApplyBackendKey => Mark('l', 's', 'n')
    case LastApplyErrorKey => Mark('l', 's', 'o')
    case LastApplyHardwareWriteKey => Mark('l', 's', 't')
    case LastApplyTargetKey => Mark('l', 's', 'e')
    case TransactionKey => Mark('t', 'a', 'o')
    case ThermalKey => Mark('t', 'e', 'a')
  }

  function RouteMark(key: RouteKey): Mark
  {
    match key
    case ReadStateKey => Mark('r', 'a', 't')
    case ApplyProfileKey => Mark('a', 'p', 'l')
    case ApplyModeKey => Mark('a', 'p', 'd')
    case ApplyPowerLimitsKey => Mark('a', 'p', 't')
    case ApplyFanTableKey => Mark('a', 'p', 'l')
    case ApplyFanBoostKey => Mark('a', 'p', 's')
    case PlatformProfileKey => Mark('p', 'a', 'l')
    case PowercapKey => Mark('p', 'w', 'a')
    case MuxRebootRequiredKey => Mark('m', 'x', 'e')
  }

  function FieldMark(key: FieldKey): Mark
  {
    match key
    case ProfileKey => Mark('p', 'o', 'l')
    case FanTableKey => Mark('f', 'n', 'l')
    case FanBoostKey => Mark('f', 'n', 's')
    case PowerKey => Mark('p', 'w', 'e')
    case Pl1Key => Mark('p', '1', 'l')
    case Pl2Key => Mark('p', '2', 'l')
    case Pl4Key => Mark('p', '4', 'l')
    case TccOffsetKey => Mark('t', 'c', 'e')
    case SourceKey => Mark('s', 'u', 'c')
    case FreshnessKey => Mark('f', 'e', 's')
    case FieldsKey => Mark('f', 'e', 'd')
    case ComponentsKey => Mark('c', 'm', 't')
  }

  function DetailMark(key: DetailKey): Mark
  {
    match key
    case StateKey => Mark('s', 'a', 't')
    case OperationKey => Mark('o', 'e', 'o')
    case StageKey => Mark('s', 'a', 'g')
    case LastErrorKey => Mark('l', 's', 'o')
    case CpuTempCKey => Mark('c', 'u', '_')
    case GpuTempCKey => Mark('g', 'u', '_')
    case CpuFanRpmKey => Mark('c', 'u', 'p')
    case GpuFanRpmKey => Mark('g', 'u', 'p')
    case VendorFanLevelKey => Mark('v', 'n', 'e')
  }

  function KeyMark(key: Key): Mark
  {
    match key
    case Top(top) => TopMark(top)
    case Route(route) => RouteMark(route)
    case Field(field) => FieldMark(field)
    case Detail(detail) => DetailMark(detail)
  }

  predicate Spells(t: string, length: nat, m: Mark)
  {
    |t| == length >= 3 && t[0] == m.first && t[2] == m.third && t[|t| - 2] == m.penultimate
  }

  lemma TopSpelled(key: TopKey)
    ensures Spells(TopText(key), TopLength(key), TopMark(key))
  {
  }

  lemma RouteSpelled(key: RouteKey)
    ensures Spells(RouteText(key), RouteLength(key), RouteMark(key))
  {
  }

  lemma FieldSpelled(key: FieldKey)
    ensures Spells(FieldText(key), FieldLength(key), FieldMark(key))
  {
  }

  lemma DetailSpelled(key: DetailKey)
    ensures Spells(DetailText(key), DetailLength(key), DetailMark(key))
  {
  }

  lemma Spelled(key: Key)
    ensures Spells(KeyText(key), KeyLength(key), KeyMark(key))
  {
    match key
    case Top(top) => TopSpelled(top);
    case Route(route) => RouteSpelled(route);
    case Field(field) => FieldSpelled(field);
    case Detail(detail) => DetailSpelled(detail);
  }

  lemma MarksDiffer(a: Key, b: Key)
    requires KeyLength(a) == KeyLength(b) && KeyMark(a) == KeyMark(b)
    ensures a == b
  {
  }

  /** Different keys are spelled differently. */
  lemma KeysDiffer(a: Key, b: Key)
    requires KeyText(a) == KeyText(b)
    ensures a == b
  {
    Spelled(a);
    Spelled(b);
    MarksDiffer(a, b);
  }

  lemma ShortTopIsWord(key: TopKey)
    requires TopLength(key) <= 14
    ensures Word(TopText(key))
  {
  }

  lemma MiddleTopIsWord(key: TopKey)
    requires 14 < TopLength(key) <= 17
    ensures Word(TopText(key))
  {
  }

  lemma LongTopIsWord(key: TopKey)
    requires TopLength(key) > 17
    ensures Word(TopText(key))
  {
  }

  lemma TopIsWord(key: TopKey)
    ensures Word(TopText(key))
  {
    if TopLength(key) <= 14 {
      ShortTopIsWord(key);
    } else if TopLength(key) <= 17 {
      MiddleTopIsWord(key);
    } else {
      LongTopIsWord(key);
    }
  }

  lemma RouteIsWord(key: RouteKey)
    ensures Word(RouteText(key))
  {
  }

  lemma FieldIsWord(key: FieldKey)
    ensures Word(FieldText(key))
  {
  }

  lemma DetailIsWord(key: DetailKey)
    ensures Word(DetailText(key))
  {
  }

  lemma KeyIsWord(key: Key)
    ensures Word(KeyText(key))
  {
    match key
    case Top(top) => TopIsWord(top);
    case Route(route) => RouteIsWord(route);
    case Field(field) => FieldIsWord(field);
    case Detail(detail) => DetailIsWord(detail);
  }
}
