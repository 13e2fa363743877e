// The published state as one JSON object, and how wide its text can get (src/core/state/model.c).
module StateTexts {
  import opened Types
  import opened JsonText
  import opened Keys
  import opened Numbers

  // ----- leaves

  function BoolOrNull(present: bool, b: bool): Json { if present then Bool(b) else Null }

  function NumberOrNull(present: bool, n: nat): Json { if present then Number(n) else Null }

  function ByteJson(b: OptByte): Json { NumberOrNull(b.present, b.value) }

  function StringOrNull(s: string): Json { if s == "" then Null else Text(s) }

  /** An error is published as its text, and no error as null. */
  function ErrorOrNull(status: Status): Json { if status == Ok then Null else Text(StatusText(status)) }

  function ServiceName(): string { "lccd" }

  // ----- objects, with holes for what is rendered beforehand

  function FieldMembers(pl1: Json, pl2: Json, pl4: Json, tcc: Json): Members
  {
    Member(Field(Pl1Key), pl1, Member(Field(Pl2Key), pl2, Member(Field(Pl4Key), pl4, Member(Field(TccOffsetKey), tcc,
                                                                                            End))))
  }

  function TargetMembers(t: Target, boost: Json, power: Json): Members
  {
    Member(Field(ProfileKey), Text(t.profile),
           Member(Field(FanTableKey), Text(t.fanTable),
                  Member(Field(FanBoostKey), boost, Member(Field(PowerKey), power, End))))
  }

  function ComponentMembers(source: Json, freshness: Json): Members
  {
    Member(Field(SourceKey), source, Member(Field(FreshnessKey), freshness, End))
  }

  function SummaryMembers(source: Json, freshness: Json, inside: Key, of: Members): Members
  {
    Member(Field(SourceKey), source, Member(Field(FreshnessKey), freshness, Member(inside, Object(of), End)))
  }

  function ComponentListMembers(profile: Json, fanTable: Json, fanBoost: Json, power: Json, thermal: Json): Members
  {
    Member(Field(ProfileKey), profile, Member(Field(FanTableKey), fanTable,
                                              Member(Field(FanBoostKey), fanBoost,
                                                     Member(Field(PowerKey), power,
                                                            Member(Top(ThermalKey), thermal, End)))))
  }

  function ExecutionMembers(read: Json, profile: Json, mode: Json, power: Json, fanTable: Json, fanBoost: Json): Members
  {
    Member(Route(ReadStateKey), read, Member(Route(ApplyProfileKey), profile, Member(Route(ApplyModeKey), mode,
      Member(Route(ApplyPowerLimitsKey), power,
             Member(Route(ApplyFanTableKey), fanTable, Member(Route(ApplyFanBoostKey), fanBoost, End))))))
  }

  function SupportMembers(c: Capabilities): Members
  {
    Member(Route(ReadStateKey), Bool(c.canRead),
           Member(Route(ApplyProfileKey), Bool(c.canProfile), Member(Route(ApplyModeKey), Bool(c.canMode),
      Member(Route(ApplyPowerLimitsKey), Bool(c.canPower), Member(Route(ApplyFanTableKey), Bool(c.canFanTable),
        Member(Route(ApplyFanBoostKey), Bool(c.canFanBoost), HardwareMembers(c)))))))
  }

  function HardwareMembers(c: Capabilities): Members
  {
    Member(Route(PlatformProfileKey), Bool(c.hasPlatformProfile), Member(Route(PowercapKey), Bool(c.hasPowercap),
      Member(Route(MuxRebootRequiredKey), Bool(c.needsReboot), End)))
  }

  function StateName(state: TransactionState): string
  {
    match state
    case Idle => "idle"
    case Pending => "pending"
    case Failed => "failed"
  }

  function TransactionMembers(state: TransactionState, operation: Json, stage: Json, error: Json): Members
  {
    Member(Detail(StateKey), Text(StateName(state)),
           Member(Detail(OperationKey), operation,
                  Member(Detail(StageKey), stage, Member(Detail(LastErrorKey), error, End))))
  }

  function ThermalMembers(cpuTemp: Json, gpuTemp: Json, cpuFan: Json, gpuFan: Json, level: Json): Members
  {
    Member(Detail(CpuTempCKey), cpuTemp,
           Member(Detail(GpuTempCKey), gpuTemp,
                  Member(Detail(CpuFanRpmKey), cpuFan,
                         Member(Detail(GpuFanRpmKey), gpuFan, Member(Detail(VendorFanLevelKey), level, End)))))
  }

  /** What is rendered into buffers of its own before the whole is. */
  datatype Pieces = Pieces(
    selected: Json, reason: Json, execution: Json,
    requested: Json, effective: Json, meta: Json, pending: Json,
    applyStage: Json, applyBackend: Json, applyError: Json, applyWrite: Json, applyTarget: Json,
    operation: Json, stage: Json, lastError: Json,
    cpuTemp: Json, gpuTemp: Json, cpuFan: Json, gpuFan: Json, level: Json)

  function FrontMembers(s: Snapshot, p: Pieces, rest: Members): Members
  {
    Member(Top(ServiceKey), Text(ServiceName()), Member(Top(BackendKey), Text(s.backendName),
      Member(Top(BackendSelectedKey), p.selected, Member(Top(BackendFallbackReasonKey), p.reason, rest))))
  }

  function MiddleMembers(execution: Json, write: Json, support: Json, rest: Members): Members
  {
    Member(Top(ExecutionKey), execution, Member(Top(HardwareWriteKey), write, Member(Top(SupportKey), support, rest)))
  }

  function HeadMembers(s: Snapshot, c: Capabilities, p: Pieces, rest: Members): Members
  {
    FrontMembers(s, p, MiddleMembers(p.execution, Bool(s.hardwareWrite), Object(SupportMembers(c)), rest))
  }

  function CurrentMembers(p: Pieces, rest: Members): Members
  {
    Member(Top(RequestedKey), p.requested,
           Member(Top(EffectiveKey), p.effective,
                  Member(Top(EffectiveMetaKey), p.meta, Member(Top(PendingKey), p.pending, rest))))
  }

  function ApplyMembers(p: Pieces, rest: Members): Members
  {
    Member(Top(LastApplyStageKey), p.applyStage,
           Member(Top(LastApplyBackendKey), p.applyBackend, Member(Top(LastApplyErrorKey), p.applyError,
      Member(Top(LastApplyHardwareWriteKey), p.applyWrite, Member(Top(LastApplyTargetKey), p.applyTarget, rest)))))
  }

  function TailMembers(transaction: Json, thermal: Json): Members
  {
    Member(Top(TransactionKey), transaction, Member(Top(ThermalKey), thermal, End))
  }

  function TransactionObject(s: Snapshot, p: Pieces): Json
  {
    Object(TransactionMembers(s.transaction.state, p.operation, p.stage, p.lastError))
  }

  function ThermalObject(p: Pieces): Json
  {
    Object(ThermalMembers(p.cpuTemp, p.gpuTemp, p.cpuFan, p.gpuFan, p.level))
  }

  function StateMembers(s: Snapshot, c: Capabilities, p: Pieces): Members
  {
    HeadMembers(s, c, p, CurrentMembers(p, ApplyMembers(p, TailMembers(TransactionObject(s, p), ThermalObject(p)))))
  }

  // ----- the state as a tree

  function PowerTree(t: Target): Json
  {
    if t.hasPower then
      Object(FieldMembers(ByteJson(t.power.pl1), ByteJson(t.power.pl2), ByteJson(t.power.pl4), ByteJson(t.power.tcc)))
    else Null
  }

  function TargetTree(t: Target): Json
  {
    Object(TargetMembers(t, BoolOrNull(t.hasBoost, t.boost), PowerTree(t)))
  }

  function TargetOrNull(present: bool, t: Target): Json { if present then TargetTree(t) else Null }

  function ComponentTree(a: Attribution): Json
  {
    Object(ComponentMembers(StringOrNull(a.source), StringOrNull(a.freshness)))
  }

  function PowerAttributionTree(m: Meta): Json
  {
    Object(SummaryMembers(StringOrNull(m.power.source), StringOrNull(m.power.freshness), Field(FieldsKey),
                          FieldMembers(ComponentTree(m.fields.pl1), ComponentTree(m.fields.pl2),
                                       ComponentTree(m.fields.pl4), ComponentTree(m.fields.tcc))))
  }

  function MetaTree(m: Meta): Json
  {
    Object(SummaryMembers(StringOrNull(m.source), StringOrNull(m.freshness), Field(ComponentsKey),
                          ComponentListMembers(ComponentTree(m.profile), ComponentTree(m.fanTable),
                                               ComponentTree(m.fanBoost),
                                               PowerAttributionTree(m), ComponentTree(m.thermal))))
  }

  function ExecutionTree(e: Execution): Json
  {
    Object(ExecutionMembers(StringOrNull(e.readState), StringOrNull(e.applyProfile), StringOrNull(e.applyMode),
                            StringOrNull(e.applyPower), StringOrNull(e.applyFanTable), StringOrNull(e.applyFanBoost)))
  }

  function PiecesOf(s: Snapshot): Pieces
  {
    Pieces(StringOrNull(s.selected), StringOrNull(s.fallbackReason), ExecutionTree(s.execution),
           TargetTree(s.requested), TargetTree(s.effective), MetaTree(s.meta),
           TargetOrNull(s.transaction.hasPending, s.transaction.pending),
           StringOrNull(s.lastApply.stage), StringOrNull(s.lastApply.backend), ErrorOrNull(s.lastApply.error),
           BoolOrNull(s.lastApply.hasHardwareWrite, s.lastApply.hardwareWrite),
           TargetOrNull(s.lastApply.hasTarget, s.lastApply.target),
           StringOrNull(s.transaction.operation), StringOrNull(s.transaction.stage),
               ErrorOrNull(s.transaction.lastError),
           NumberOrNull(s.thermal.hasCpuTemp, s.thermal.cpuTemp), NumberOrNull(s.thermal.hasGpuTemp, s.thermal.gpuTemp),
           NumberOrNull(s.thermal.hasCpuFan, s.thermal.cpuFan), NumberOrNull(s.thermal.hasGpuFan, s.thermal.gpuFan),
           NumberOrNull(s.thermal.hasVendorLevel, s.thermal.vendorLevel))
  }

  function StateTree(s: Snapshot, c: Capabilities): Json
  {
    Object(StateMembers(s, c, PiecesOf(s)))
  }

  // ----- widths

  /** The length of the printed text, from the lengths of its parts. */
  function WidthOf(v: Json): nat
  {
    match v
    case Null => 4
    case Bool(truth) => if truth then 4 else 5
    case Number(number) => |Decimal(number)|
    case Text(text) => |text| + 2
    case Raw(rendered) => |rendered|
    case Object(members) => if members.End? then 2 else WidthIn(members) + 1
  }

  function WidthIn(ms: Members): nat
  {
    match ms
    case End => 0
    case Member(key, value, rest) => KeyLength(key) + 4 + WidthOf(value) + WidthIn(rest)
  }

  lemma {:induction false} WidthIsLength(v: Json)
    ensures |Print(v)| == WidthOf(v)
  {
    match v
    case Object(members) => WidthInIsLength(members);
    case _ =>
  }

  lemma {:induction false} WidthInIsLength(ms: Members)
    ensures |PrintRest(ms)| == WidthIn(ms)
    ensures ms.Member? ==> |PrintMembers(ms)| == WidthIn(ms) - 1
  {
    if ms.Member? {
      Spelled(ms.key);
      WidthIsLength(ms.value);
      WidthInIsLength(ms.rest);
    }
  }

  lemma ThreeWidth(k1: Key, v1: Json, k2: Key, v2: Json, k3: Key, v3: Json, rest: Members)
    ensures WidthIn(Member(k1, v1, Member(k2, v2, Member(k3, v3, rest))))
      == 12 + KeyLength(k1) + KeyLength(k2) + KeyLength(k3) + WidthOf(v1) + WidthOf(v2) + WidthOf(v3) + WidthIn(rest)
  {
    var tail := Member(k3, v3, rest);
    assert WidthIn(tail) == 4 + KeyLength(k3) + WidthOf(v3) + WidthIn(rest);
  }

  lemma FourWidth(k1: Key, v1: Json, k2: Key, v2: Json, k3: Key, v3: Json, k4: Key, v4: Json, rest: Members)
    ensures WidthIn(Member(k1, v1, Member(k2, v2, Member(k3, v3, Member(k4, v4, rest)))))
      == 16 + KeyLength(k1) + KeyLength(k2) + KeyLength(k3) + KeyLength(k4) + WidthOf(v1) + WidthOf(v2) + WidthOf(v3) +
          WidthOf(v4) + WidthIn(rest)
  {
    ThreeWidth(k1, v1, k2, v2, k3, v3, Member(k4, v4, rest));
  }

  lemma FiveWidth(k1: Key, v1: Json, k2: Key, v2: Json, k3: Key, v3: Json, k4: Key, v4: Json, k5: Key, v5: Json,
                  rest: Members)
    ensures WidthIn(Member(k1, v1, Member(k2, v2, Member(k3, v3, Member(k4, v4, Member(k5, v5, rest))))))
      == 20 + KeyLength(k1) + KeyLength(k2) + KeyLength(k3) + KeyLength(k4) + KeyLength(k5) + WidthOf(v1) +
          WidthOf(v2) + WidthOf(v3) + WidthOf(v4) + WidthOf(v5) + WidthIn(rest)
  {
    ThreeWidth(k1, v1, k2, v2, k3, v3, Member(k4, v4, Member(k5, v5, rest)));
  }

  lemma NumberWidth(present: bool, n: nat)
    ensures n < 1000 ==> WidthOf(NumberOrNull(present, n)) <= 4
    ensures n < 100_000 ==> WidthOf(NumberOrNull(present, n)) <= 5
  {
    assert Ten(2) == 100;
    assert Ten(3) == 1000;
    assert Ten(4) == 10_000;
    assert Ten(5) == 100_000;
    if n < 1000 {
      DecimalFits(n, 3);
    } else if n < 100_000 {
      DecimalFits(n, 5);
    }
  }

  lemma FieldsWidth(pl1: Json, pl2: Json, pl4: Json, tcc: Json)
    ensures WidthOf(Object(FieldMembers(pl1, pl2, pl4, tcc))) == 36 + WidthOf(pl1) + WidthOf(pl2) + WidthOf(pl4) +
      WidthOf(tcc)
  {
    FourWidth(Field(Pl1Key), pl1, Field(Pl2Key), pl2, Field(Pl4Key), pl4, Field(TccOffsetKey), tcc, End);
  }

  lemma TargetWidth(t: Target)
    ensures WidthOf(PowerTree(t)) <= 52
    ensures WidthOf(TargetTree(t)) <= 234
  {
    NumberWidth(t.power.pl1.present, t.power.pl1.value);
    NumberWidth(t.power.pl2.present, t.power.pl2.value);
    NumberWidth(t.power.pl4.present, t.power.pl4.value);
    NumberWidth(t.power.tcc.present, t.power.tcc.value);
    FieldsWidth(ByteJson(t.power.pl1), ByteJson(t.power.pl2), ByteJson(t.power.pl4), ByteJson(t.power.tcc));
    TargetMembersWidth(t, BoolOrNull(t.hasBoost, t.boost), PowerTree(t));
  }

  lemma TargetMembersWidth(t: Target, boost: Json, power: Json)
    ensures WidthOf(Object(TargetMembers(t, boost, power))) == 51 + |t.profile| + |t.fanTable| + WidthOf(boost) +
      WidthOf(power)
  {
    FourWidth(Field(ProfileKey), Text(t.profile), Field(FanTableKey), Text(t.fanTable), Field(FanBoostKey), boost,
              Field(PowerKey), power, End);
  }

  lemma ComponentWidth(a: Attribution)
    ensures WidthOf(ComponentTree(a)) <= 90
  {
    var source, freshness := StringOrNull(a.source), StringOrNull(a.freshness);
    var tail := Member(Field(FreshnessKey), freshness, End);
    assert WidthIn(tail) == 13 + WidthOf(freshness);
    assert WidthIn(Member(Field(SourceKey), source, tail)) == 10 + WidthOf(source) + WidthIn(tail);
  }

  lemma SummaryWidth(source: Json, freshness: Json, inside: Key, of: Members)
    ensures WidthOf(Object(SummaryMembers(source, freshness, inside, of)))
      == 28 + WidthOf(source) + WidthOf(freshness) + KeyLength(inside) + WidthOf(Object(of))
  {
    ThreeWidth(Field(SourceKey), source, Field(FreshnessKey), freshness, inside, Object(of), End);
  }

  lemma PowerAttributionWidth(m: Meta)
    ensures WidthOf(PowerAttributionTree(m)) <= 496
  {
    var p1, p2, p4, pt := ComponentTree(m.fields.pl1), ComponentTree(m.fields.pl2), ComponentTree(m.fields.pl4),
        ComponentTree(m.fields.tcc);
    ComponentWidth(m.fields.pl1);
    ComponentWidth(m.fields.pl2);
    ComponentWidth(m.fields.pl4);
    ComponentWidth(m.fields.tcc);
    FieldsWidth(p1, p2, p4, pt);
    SummaryWidth(StringOrNull(m.power.source), StringOrNull(m.power.freshness), Field(FieldsKey),
                 FieldMembers(p1, p2, p4, pt));
  }

  lemma ComponentListWidth(profile: Json, fanTable: Json, fanBoost: Json, power: Json, thermal: Json)
    ensures WidthOf(Object(ComponentListMembers(profile, fanTable, fanBoost, power, thermal)))
      == 58 + WidthOf(profile) + WidthOf(fanTable) + WidthOf(fanBoost) + WidthOf(power) + WidthOf(thermal)
  {
    FiveWidth(Field(ProfileKey), profile, Field(FanTableKey), fanTable, Field(FanBoostKey), fanBoost, Field(PowerKey),
              power, Top(ThermalKey), thermal, End);
  }

  lemma MetaWidth(m: Meta)
    ensures WidthOf(MetaTree(m)) <= 1018
  {
    ComponentWidth(m.profile);
    ComponentWidth(m.fanTable);
    ComponentWidth(m.fanBoost);
    ComponentWidth(m.thermal);
    PowerAttributionWidth(m);
    var profile, fanTable, fanBoost, thermal :=
      ComponentTree(m.profile), ComponentTree(m.fanTable), ComponentTree(m.fanBoost), ComponentTree(m.thermal);
    ComponentListWidth(profile, fanTable, fanBoost, PowerAttributionTree(m), thermal);
    SummaryWidth(StringOrNull(m.source), StringOrNull(m.freshness), Field(ComponentsKey),
                 ComponentListMembers(profile, fanTable, fanBoost, PowerAttributionTree(m), thermal));
  }

  lemma ExecutionMembersWidth(read: Json, profile: Json, mode: Json, power: Json, fanTable: Json, fanBoost: Json)
    ensures WidthOf(Object(ExecutionMembers(read, profile, mode, power, fanTable, fanBoost)))
      == 106 + WidthOf(read) + WidthOf(profile) + WidthOf(mode) + WidthOf(power) + WidthOf(fanTable) + WidthOf(fanBoost)
  {
    var last := Member(Route(ApplyPowerLimitsKey), power,
                       Member(Route(ApplyFanTableKey), fanTable, Member(Route(ApplyFanBoostKey), fanBoost, End)));
    ThreeWidth(Route(ApplyPowerLimitsKey), power, Route(ApplyFanTableKey), fanTable, Route(ApplyFanBoostKey), fanBoost,
               End);
    ThreeWidth(Route(ReadStateKey), read, Route(ApplyProfileKey), profile, Route(ApplyModeKey), mode, last);
  }

  lemma ExecutionWidth(e: Execution)
    ensures WidthOf(ExecutionTree(e)) <= 304
  {
    ExecutionMembersWidth(StringOrNull(e.readState), StringOrNull(e.applyProfile), StringOrNull(e.applyMode),
                          StringOrNull(e.applyPower), StringOrNull(e.applyFanTable), StringOrNull(e.applyFanBoost));
  }

  lemma SupportWidth(c: Capabilities)
    ensures WidthOf(Object(SupportMembers(c))) <= 206
  {
    ThreeWidth(Route(PlatformProfileKey), Bool(c.hasPlatformProfile), Route(PowercapKey), Bool(c.hasPowercap),
             Route(MuxRebootRequiredKey), Bool(c.needsReboot), End);
    var rest := HardwareMembers(c);
    var v4, v5, v6 := Bool(c.canPower), Bool(c.canFanTable), Bool(c.canFanBoost);
    ThreeWidth(Route(ApplyPowerLimitsKey), v4, Route(ApplyFanTableKey), v5, Route(ApplyFanBoostKey), v6, rest);
    ThreeWidth(Route(ReadStateKey), Bool(c.canRead), Route(ApplyProfileKey), Bool(c.canProfile), Route(ApplyModeKey),
               Bool(c.canMode),
             Member(Route(ApplyPowerLimitsKey), v4,
                    Member(Route(ApplyFanTableKey), v5, Member(Route(ApplyFanBoostKey), v6, rest))));
  }

  lemma TransactionWidth(t: Transaction)
    ensures WidthOf(Object(TransactionMembers(t.state, StringOrNull(t.operation), StringOrNull(t.stage),
                                              ErrorOrNull(t.lastError)))) <= 218
  {
    assert |StateName(t.state)| <= 7;
    FourWidth(Detail(StateKey), Text(StateName(t.state)), Detail(OperationKey), StringOrNull(t.operation),
              Detail(StageKey), StringOrNull(t.stage),
              Detail(LastErrorKey), ErrorOrNull(t.lastError), End);
  }

  lemma ThermalWidth(t: Thermal)
    ensures WidthOf(Object(ThermalMembers(NumberOrNull(t.hasCpuTemp, t.cpuTemp), NumberOrNull(t.hasGpuTemp, t.gpuTemp),
                                        NumberOrNull(t.hasCpuFan, t.cpuFan), NumberOrNull(t.hasGpuFan, t.gpuFan),
                                        NumberOrNull(t.hasVendorLevel, t.vendorLevel)))) <= 101
  {
    NumberWidth(t.hasCpuTemp, t.cpuTemp);
    NumberWidth(t.hasGpuTemp, t.gpuTemp);
    NumberWidth(t.hasCpuFan, t.cpuFan);
    NumberWidth(t.hasGpuFan, t.gpuFan);
    NumberWidth(t.hasVendorLevel, t.vendorLevel);
    ThermalMembersWidth(NumberOrNull(t.hasCpuTemp, t.cpuTemp), NumberOrNull(t.hasGpuTemp, t.gpuTemp),
                        NumberOrNull(t.hasCpuFan, t.cpuFan), NumberOrNull(t.hasGpuFan, t.gpuFan),
                        NumberOrNull(t.hasVendorLevel, t.vendorLevel));
  }

  lemma ThermalMembersWidth(cpuTemp: Json, gpuTemp: Json, cpuFan: Json, gpuFan: Json, level: Json)
    ensures WidthOf(Object(ThermalMembers(cpuTemp, gpuTemp, cpuFan, gpuFan, level)))
      == 79 + WidthOf(cpuTemp) + WidthOf(gpuTemp) + WidthOf(cpuFan) + WidthOf(gpuFan) + WidthOf(level)
  {
    FiveWidth(Detail(CpuTempCKey), cpuTemp, Detail(GpuTempCKey), gpuTemp, Detail(CpuFanRpmKey), cpuFan,
              Detail(GpuFanRpmKey), gpuFan, Detail(VendorFanLevelKey), level, End);
  }

  lemma HeadWidth(s: Snapshot, c: Capabilities, p: Pieces, rest: Members)
    requires WidthOf(p.selected) <= 33 && WidthOf(p.reason) <= 193 && WidthOf(p.execution) <= 304
    ensures WidthIn(HeadMembers(s, c, p, rest)) <= 891 + WidthIn(rest)
  {
    SupportWidth(c);
    var support := Object(SupportMembers(c));
    var tail := Member(Top(ExecutionKey), p.execution,
                       Member(Top(HardwareWriteKey), Bool(s.hardwareWrite), Member(Top(SupportKey), support, rest)));
    ThreeWidth(Top(ExecutionKey), p.execution, Top(HardwareWriteKey), Bool(s.hardwareWrite), Top(SupportKey), support,
               rest);
    ServiceWidth();
    FourWidth(Top(ServiceKey), Text(ServiceName()), Top(BackendKey), Text(s.backendName), Top(BackendSelectedKey),
              p.selected,
              Top(BackendFallbackReasonKey), p.reason, tail);
  }

  lemma ServiceWidth()
    ensures |ServiceName()| == 4
  {
  }

  lemma CurrentWidth(p: Pieces, rest: Members)
    requires WidthOf(p.requested) <= 234 && WidthOf(p.effective) <= 234 && WidthOf(p.meta) <= 1018 &&
      WidthOf(p.pending) <= 234
    ensures WidthIn(CurrentMembers(p, rest)) <= 1775 + WidthIn(rest)
  {
    FourWidth(Top(RequestedKey), p.requested, Top(EffectiveKey), p.effective, Top(EffectiveMetaKey), p.meta,
              Top(PendingKey), p.pending, rest);
  }

  lemma ApplyWidth(p: Pieces, rest: Members)
    requires WidthOf(p.applyStage) <= 97 && WidthOf(p.applyBackend) <= 33 && WidthOf(p.applyError) <= 33
    requires WidthOf(p.applyWrite) <= 5 && WidthOf(p.applyTarget) <= 234
    ensures WidthIn(ApplyMembers(p, rest)) <= 514 + WidthIn(rest)
  {
    FiveWidth(Top(LastApplyStageKey), p.applyStage, Top(LastApplyBackendKey), p.applyBackend, Top(LastApplyErrorKey),
              p.applyError,
              Top(LastApplyHardwareWriteKey), p.applyWrite, Top(LastApplyTargetKey), p.applyTarget, rest);
  }

  lemma TailMembersWidth(transaction: Json, thermal: Json)
    ensures WidthIn(TailMembers(transaction, thermal)) == 26 + WidthOf(transaction) + WidthOf(thermal)
  {
    var last := Member(Top(ThermalKey), thermal, End);
    assert WidthIn(last) == 11 + WidthOf(thermal);
    assert WidthIn(Member(Top(TransactionKey), transaction, last)) == 15 + WidthOf(transaction) + WidthIn(last);
  }

  lemma TailWidth(s: Snapshot)
    ensures var p := PiecesOf(s); WidthIn(TailMembers(TransactionObject(s, p), ThermalObject(p))) <= 345
  {
    TransactionWidth(s.transaction);
    ThermalWidth(s.thermal);
    TailMembersWidth(TransactionObject(s, PiecesOf(s)), ThermalObject(PiecesOf(s)));
  }

  lemma PiecesWidth(s: Snapshot)
    ensures var p := PiecesOf(s);
      && WidthOf(p.selected) <= 33 && WidthOf(p.reason) <= 193 && WidthOf(p.execution) <= 304
      && WidthOf(p.requested) <= 234 && WidthOf(p.effective) <= 234 && WidthOf(p.meta) <= 1018 &&
          WidthOf(p.pending) <= 234
      && WidthOf(p.applyStage) <= 97 && WidthOf(p.applyBackend) <= 33 && WidthOf(p.applyError) <= 33
      && WidthOf(p.applyWrite) <= 5 && WidthOf(p.applyTarget) <= 234
  {
    ExecutionWidth(s.execution);
    TargetWidth(s.requested);
    TargetWidth(s.effective);
    MetaWidth(s.meta);
    TargetWidth(s.transaction.pending);
    TargetWidth(s.lastApply.target);
  }

  /** No snapshot within its field capacities prints wider than this. */
  lemma StateWidth(s: Snapshot, c: Capabilities)
    ensures |Print(StateTree(s, c))| <= 3526
  {
    var p := PiecesOf(s);
    PiecesWidth(s);
    TailWidth(s);
    var tail := TailMembers(TransactionObject(s, p), ThermalObject(p));
    ApplyWidth(p, tail);
    var applied := ApplyMembers(p, tail);
    CurrentWidth(p, applied);
    HeadWidth(s, c, p, CurrentMembers(p, applied));
    WidthIsLength(StateTree(s, c));
  }
}
