// Rendering the state through a row of fixed buffers (src/core/state/model.c).
module Renderer {
  import opened Types
  import opened Keys
  import opened Numbers
  import opened JsonText
  import opened StateTexts

  // ----- what is rendered beforehand prints the same

  predicate Same(v: Json, w: Json) { Print(v) == Print(w) }

  lemma ThreeSame(k1: Key, v1: Json, w1: Json, k2: Key, v2: Json, w2: Json, k3: Key, v3: Json, w3: Json, rest: Members,
                  other: Members)
    requires Same(v1, w1) && Same(v2, w2) && Same(v3, w3) && PrintRest(rest) == PrintRest(other)
    ensures var ms := Member(k1, v1, Member(k2, v2, Member(k3, v3, rest)));
      var ns := Member(k1, w1, Member(k2, w2, Member(k3, w3, other)));
      PrintRest(ms) == PrintRest(ns) && Same(Object(ms), Object(ns))
  {
    assert PrintRest(Member(k3, v3, rest)) == PrintRest(Member(k3, w3, other));
    assert PrintRest(Member(k2, v2, Member(k3, v3, rest))) == PrintRest(Member(k2, w2, Member(k3, w3, other)));
  }

  lemma OneSame(k: Key, v: Json, w: Json, rest: Members, other: Members)
    requires Same(v, w) && PrintRest(rest) == PrintRest(other)
    ensures PrintRest(Member(k, v, rest)) == PrintRest(Member(k, w, other))
    ensures Same(Object(Member(k, v, rest)), Object(Member(k, w, other)))
  {
  }

  lemma FieldsSame(a1: Json, b1: Json, a2: Json, b2: Json, a4: Json, b4: Json, at: Json, bt: Json)
    requires Same(a1, b1) && Same(a2, b2) && Same(a4, b4) && Same(at, bt)
    ensures Same(Object(FieldMembers(a1, a2, a4, at)), Object(FieldMembers(b1, b2, b4, bt)))
  {
    OneSame(Field(TccOffsetKey), at, bt, End, End);
    ThreeSame(Field(Pl1Key), a1, b1, Field(Pl2Key), a2, b2, Field(Pl4Key), a4, b4,
              Member(Field(TccOffsetKey), at, End), Member(Field(TccOffsetKey), bt, End));
  }

  lemma TargetSame(t: Target, boost: Json, boost': Json, power: Json, power': Json)
    requires Same(boost, boost') && Same(power, power')
    ensures Same(Object(TargetMembers(t, boost, power)), Object(TargetMembers(t, boost', power')))
  {
    OneSame(Field(PowerKey), power, power', End, End);
    ThreeSame(Field(ProfileKey), Text(t.profile), Text(t.profile), Field(FanTableKey), Text(t.fanTable),
              Text(t.fanTable),
              Field(FanBoostKey), boost, boost', Member(Field(PowerKey), power, End), Member(Field(PowerKey), power',
                                                                                             End));
  }

  lemma ComponentSame(source: Json, source': Json, freshness: Json, freshness': Json)
    requires Same(source, source') && Same(freshness, freshness')
    ensures Same(Object(ComponentMembers(source, freshness)), Object(ComponentMembers(source', freshness')))
  {
    OneSame(Field(FreshnessKey), freshness, freshness', End, End);
    OneSame(Field(SourceKey), source, source', Member(Field(FreshnessKey), freshness, End),
            Member(Field(FreshnessKey), freshness', End));
  }

  lemma SummarySame(source: Json, source': Json, freshness: Json, freshness': Json, inside: Key, of: Members,
                    of': Members)
    requires Same(source, source') && Same(freshness, freshness') && Same(Object(of), Object(of'))
    ensures Same(Object(SummaryMembers(source, freshness, inside, of)),
                 Object(SummaryMembers(source', freshness', inside, of')))
  {
    ThreeSame(Field(SourceKey), source, source', Field(FreshnessKey), freshness, freshness', inside, Object(of),
              Object(of'), End, End);
  }

  lemma ComponentListSame(p: Json, p': Json, t: Json, t': Json, b: Json, b': Json, w: Json, w': Json, h: Json, h': Json)
    requires Same(p, p') && Same(t, t') && Same(b, b') && Same(w, w') && Same(h, h')
    ensures Same(Object(ComponentListMembers(p, t, b, w, h)), Object(ComponentListMembers(p', t', b', w', h')))
  {
    var last, last' := Member(Top(ThermalKey), h, End), Member(Top(ThermalKey), h', End);
    OneSame(Top(ThermalKey), h, h', End, End);
    OneSame(Field(PowerKey), w, w', last, last');
    ThreeSame(Field(ProfileKey), p, p', Field(FanTableKey), t, t', Field(FanBoostKey), b, b',
              Member(Field(PowerKey), w, last), Member(Field(PowerKey), w', last'));
  }

  lemma ExecutionSame(a: seq<Json>, b: seq<Json>)
    requires |a| == |b| == 6 && forall i | 0 <= i < 6 :: Same(a[i], b[i])
    ensures Same(Object(ExecutionMembers(a[0], a[1], a[2], a[3], a[4], a[5])),
                 Object(ExecutionMembers(b[0], b[1], b[2], b[3], b[4], b[5])))
  {
    ThreeSame(Route(ApplyPowerLimitsKey), a[3], b[3], Route(ApplyFanTableKey), a[4], b[4], Route(ApplyFanBoostKey),
              a[5], b[5], End, End);
    ThreeSame(Route(ReadStateKey), a[0], b[0], Route(ApplyProfileKey), a[1], b[1], Route(ApplyModeKey), a[2], b[2],
              Member(Route(ApplyPowerLimitsKey), a[3],
                     Member(Route(ApplyFanTableKey), a[4], Member(Route(ApplyFanBoostKey), a[5], End))),
              Member(Route(ApplyPowerLimitsKey), b[3],
                     Member(Route(ApplyFanTableKey), b[4], Member(Route(ApplyFanBoostKey), b[5], End))));
  }

  lemma PowerAttributionSame(m: Meta, source: Json, freshness: Json, pl1: Json, pl2: Json, pl4: Json, tcc: Json)
    requires Same(source, StringOrNull(m.power.source)) && Same(freshness, StringOrNull(m.power.freshness))
    requires Same(pl1, ComponentTree(m.fields.pl1)) && Same(pl2, ComponentTree(m.fields.pl2))
    requires Same(pl4, ComponentTree(m.fields.pl4)) && Same(tcc, ComponentTree(m.fields.tcc))
    ensures Same(Object(SummaryMembers(source, freshness, Field(FieldsKey), FieldMembers(pl1, pl2, pl4, tcc))),
                 PowerAttributionTree(m))
  {
    var t1, t2, t4, tt := ComponentTree(m.fields.pl1), ComponentTree(m.fields.pl2), ComponentTree(m.fields.pl4),
        ComponentTree(m.fields.tcc);
    FieldsSame(pl1, t1, pl2, t2, pl4, t4, tcc, tt);
    SummarySame(source, StringOrNull(m.power.source), freshness, StringOrNull(m.power.freshness), Field(FieldsKey),
                FieldMembers(pl1, pl2, pl4, tcc), FieldMembers(t1, t2, t4, tt));
  }

  lemma MetaSame(m: Meta, source: Json, freshness: Json, profile: Json, fanTable: Json, fanBoost: Json, power: Json,
                 thermal: Json)
    requires Same(source, StringOrNull(m.source)) && Same(freshness, StringOrNull(m.freshness))
    requires Same(profile, ComponentTree(m.profile)) && Same(fanTable, ComponentTree(m.fanTable))
    requires Same(fanBoost, ComponentTree(m.fanBoost)) && Same(power, PowerAttributionTree(m)) &&
      Same(thermal, ComponentTree(m.thermal))
    ensures Same(Object(SummaryMembers(source, freshness, Field(ComponentsKey),
                                       ComponentListMembers(profile, fanTable, fanBoost, power, thermal))), MetaTree(m))
  {
    ComponentListSame(profile, ComponentTree(m.profile), fanTable, ComponentTree(m.fanTable), fanBoost,
                      ComponentTree(m.fanBoost),
                      power, PowerAttributionTree(m), thermal, ComponentTree(m.thermal));
    SummarySame(source, StringOrNull(m.source), freshness, StringOrNull(m.freshness), Field(ComponentsKey),
                ComponentListMembers(profile, fanTable, fanBoost, power, thermal),
                ComponentListMembers(ComponentTree(m.profile), ComponentTree(m.fanTable), ComponentTree(m.fanBoost),
                                     PowerAttributionTree(m), ComponentTree(m.thermal)));
  }

  // ----- the appends: each leaves what snprintf leaves, and the buffers they are given are wide enough

  lemma Whole(v: Json, bound: nat, capacity: nat)
    requires WidthOf(v) <= bound < capacity
    ensures Truncate(Print(v), capacity) == Print(v)
  {
    WidthIsLength(v);
  }

  /** `append_u8_or_null` and `append_u16_or_null` */
  method AppendNumberOrNull(capacity: nat, present: bool, value: u16) returns (buffer: string)
    requires capacity > 0
    ensures buffer == Truncate(Print(NumberOrNull(present, value)), capacity)
    ensures capacity > 5 ==> buffer == Print(NumberOrNull(present, value))
  {
    if capacity > 5 {
      NumberWidth(present, value);
      Whole(NumberOrNull(present, value), 5, capacity);
    }
    buffer := if present then Truncate(Decimal(value), capacity) else Truncate("null", capacity);
  }

  method AppendBoolOrNull(capacity: nat, present: bool, value: bool) returns (buffer: string)
    requires capacity > 0
    ensures buffer == Truncate(Print(BoolOrNull(present, value)), capacity)
    ensures capacity > 5 ==> buffer == Print(BoolOrNull(present, value))
  {
    if capacity > 5 {
      Whole(BoolOrNull(present, value), 5, capacity);
    }
    buffer := if !present then Truncate("null", capacity) else Truncate(if value then "true" else "false", capacity);
  }

  /** `append_string_or_null`: the only append that notices a full buffer. */
  method AppendStringOrNull(capacity: nat, value: string) returns (written: int, buffer: string)
    requires capacity > 0
    ensures buffer == Truncate(Print(StringOrNull(value)), capacity)
    ensures written == if |Print(StringOrNull(value))| < capacity then |Print(StringOrNull(value))| else -1
  {
    var text := if value == "" then "null" else Quote(value);
    buffer := Truncate(text, capacity);
    written := if |text| >= capacity then -1 else |text|;
  }

  /** Every caller's buffer holds its longest name, so the error return is never taken. */
  method AppendName(capacity: nat, value: string) returns (buffer: string)
    requires |value| + 2 < capacity && capacity > 4
    ensures buffer == Print(StringOrNull(value))
  {
    Whole(StringOrNull(value), if |value| < 2 then 4 else |value| + 2, capacity);
    var written;
    written, buffer := AppendStringOrNull(capacity, value);
    assert written >= 0;
  }

  method AppendPower(capacity: nat, t: Target) returns (buffer: string)
    requires capacity > 0
    ensures buffer == Truncate(Print(PowerTree(t)), capacity)
    ensures capacity > 52 ==> buffer == Print(PowerTree(t))
  {
    if capacity > 52 {
      TargetWidth(t);
      Whole(PowerTree(t), 52, capacity);
    }
    if !t.hasPower {
      return Truncate("null", capacity);
    }
    var pl1 := AppendNumberOrNull(16, t.power.pl1.present, t.power.pl1.value);
    var pl2 := AppendNumberOrNull(16, t.power.pl2.present, t.power.pl2.value);
    var pl4 := AppendNumberOrNull(16, t.power.pl4.present, t.power.pl4.value);
    var tcc := AppendNumberOrNull(16, t.power.tcc.present, t.power.tcc.value);
    FieldsSame(Raw(pl1), ByteJson(t.power.pl1), Raw(pl2), ByteJson(t.power.pl2),
               Raw(pl4), ByteJson(t.power.pl4), Raw(tcc), ByteJson(t.power.tcc));
    buffer := Truncate(Print(Object(FieldMembers(Raw(pl1), Raw(pl2), Raw(pl4), Raw(tcc)))), capacity);
  }

  method AppendTarget(capacity: nat, t: Target) returns (buffer: string)
    requires capacity > 0
    ensures buffer == Truncate(Print(TargetTree(t)), capacity)
    ensures capacity > 234 ==> buffer == Print(TargetTree(t))
  {
    if capacity > 234 {
      TargetWidth(t);
      Whole(TargetTree(t), 234, capacity);
    }
    var power := AppendPower(128, t);
    var boost := AppendBoolOrNull(16, t.hasBoost, t.boost);
    TargetSame(t, Raw(boost), BoolOrNull(t.hasBoost, t.boost), Raw(power), PowerTree(t));
    buffer := Truncate(Print(Object(TargetMembers(t, Raw(boost), Raw(power)))), capacity);
  }

  method AppendExecution(capacity: nat, e: Execution) returns (buffer: string)
    requires capacity > 0
    ensures buffer == Truncate(Print(ExecutionTree(e)), capacity)
    ensures capacity > 304 ==> buffer == Print(ExecutionTree(e))
  {
    if capacity > 304 {
      ExecutionWidth(e);
      Whole(ExecutionTree(e), 304, capacity);
    }
    var read := AppendName(64, e.readState);
    var profile := AppendName(64, e.applyProfile);
    var mode := AppendName(64, e.applyMode);
    var power := AppendName(64, e.applyPower);
    var fanTable := AppendName(64, e.applyFanTable);
    var fanBoost := AppendName(64, e.applyFanBoost);
    ExecutionSame([Raw(read), Raw(profile), Raw(mode), Raw(power), Raw(fanTable), Raw(fanBoost)],
                  [StringOrNull(e.readState), StringOrNull(e.applyProfile), StringOrNull(e.applyMode),
                   StringOrNull(e.applyPower), StringOrNull(e.applyFanTable), StringOrNull(e.applyFanBoost)]);
    buffer := Truncate(Print(Object(ExecutionMembers(Raw(read), Raw(profile), Raw(mode), Raw(power), Raw(fanTable),
                                                     Raw(fanBoost)))), capacity);
  }

  method AppendComponent(capacity: nat, a: Attribution) returns (buffer: string)
    requires capacity > 0
    ensures buffer == Truncate(Print(ComponentTree(a)), capacity)
    ensures capacity > 90 ==> buffer == Print(ComponentTree(a))
  {
    if capacity > 90 {
      ComponentWidth(a);
      Whole(ComponentTree(a), 90, capacity);
    }
    var source := AppendName(64, a.source);
    var freshness := AppendName(64, a.freshness);
    ComponentSame(Raw(source), StringOrNull(a.source), Raw(freshness), StringOrNull(a.freshness));
    buffer := Truncate(Print(Object(ComponentMembers(Raw(source), Raw(freshness)))), capacity);
  }

  method AppendPowerAttribution(capacity: nat, m: Meta) returns (buffer: string)
    requires capacity > 0
    ensures buffer == Truncate(Print(PowerAttributionTree(m)), capacity)
    ensures capacity > 496 ==> buffer == Print(PowerAttributionTree(m))
  {
    if capacity > 496 {
      PowerAttributionWidth(m);
      Whole(PowerAttributionTree(m), 496, capacity);
    }
    var source := AppendName(64, m.power.source);
    var freshness := AppendName(64, m.power.freshness);
    var pl1 := AppendComponent(96, m.fields.pl1);
    var pl2 := AppendComponent(96, m.fields.pl2);
    var pl4 := AppendComponent(96, m.fields.pl4);
    var tcc := AppendComponent(96, m.fields.tcc);
    PowerAttributionSame(m, Raw(source), Raw(freshness), Raw(pl1), Raw(pl2), Raw(pl4), Raw(tcc));
    var fields := FieldMembers(Raw(pl1), Raw(pl2), Raw(pl4), Raw(tcc));
    buffer := Truncate(Print(Object(SummaryMembers(Raw(source), Raw(freshness), Field(FieldsKey), fields))), capacity);
  }

  method AppendEffectiveMeta(capacity: nat, m: Meta) returns (buffer: string)
    requires capacity > 0
    ensures buffer == Truncate(Print(MetaTree(m)), capacity)
    ensures capacity > 1018 ==> buffer == Print(MetaTree(m))
  {
    if capacity > 1018 {
      MetaWidth(m);
      Whole(MetaTree(m), 1018, capacity);
    }
    var source := AppendName(64, m.source);
    var freshness := AppendName(64, m.freshness);
    var profile := AppendComponent(96, m.profile);
    var fanTable := AppendComponent(96, m.fanTable);
    var fanBoost := AppendComponent(96, m.fanBoost);
    var power := AppendPowerAttribution(512, m);
    var thermal := AppendComponent(96, m.thermal);
    MetaSame(m, Raw(source), Raw(freshness), Raw(profile), Raw(fanTable), Raw(fanBoost), Raw(power), Raw(thermal));
    var components := ComponentListMembers(Raw(profile), Raw(fanTable), Raw(fanBoost), Raw(power), Raw(thermal));
    buffer := Truncate(Print(Object(SummaryMembers(Raw(source), Raw(freshness), Field(ComponentsKey), components))),
                       capacity);
  }

  // ----- the whole object

  predicate SameHead(p: Pieces, q: Pieces)
  {
    Same(p.selected, q.selected) && Same(p.reason, q.reason) && Same(p.execution, q.execution)
  }

  predicate SameCurrent(p: Pieces, q: Pieces)
  {
    Same(p.requested, q.requested) && Same(p.effective, q.effective) && Same(p.meta, q.meta) &&
        Same(p.pending, q.pending)
  }

  predicate SameApply(p: Pieces, q: Pieces)
  {
    && Same(p.applyStage, q.applyStage) && Same(p.applyBackend, q.applyBackend) && Same(p.applyError, q.applyError)
    && Same(p.applyWrite, q.applyWrite) && Same(p.applyTarget, q.applyTarget)
  }

  predicate SameTransaction(p: Pieces, q: Pieces)
  {
    Same(p.operation, q.operation) && Same(p.stage, q.stage) && Same(p.lastError, q.lastError)
  }

  predicate SameThermal(p: Pieces, q: Pieces)
  {
    && Same(p.cpuTemp, q.cpuTemp) && Same(p.gpuTemp, q.gpuTemp) && Same(p.cpuFan, q.cpuFan) && Same(p.gpuFan, q.gpuFan)
    && Same(p.level, q.level)
  }

  lemma TransactionSame(s: Snapshot, p: Pieces, q: Pieces)
    requires SameTransaction(p, q)
    ensures Same(TransactionObject(s, p), TransactionObject(s, q))
  {
    OneSame(Detail(LastErrorKey), p.lastError, q.lastError, End, End);
    var name := Text(StateName(s.transaction.state));
    ThreeSame(Detail(StateKey), name, name, Detail(OperationKey), p.operation, q.operation, Detail(StageKey), p.stage,
              q.stage,
              Member(Detail(LastErrorKey), p.lastError, End), Member(Detail(LastErrorKey), q.lastError, End));
  }

  lemma ThermalSame(p: Pieces, q: Pieces)
    requires SameThermal(p, q)
    ensures Same(ThermalObject(p), ThermalObject(q))
  {
    var a, b := Member(Detail(VendorFanLevelKey), p.level, End), Member(Detail(VendorFanLevelKey), q.level, End);
    OneSame(Detail(VendorFanLevelKey), p.level, q.level, End, End);
    OneSame(Detail(GpuFanRpmKey), p.gpuFan, q.gpuFan, a, b);
    ThreeSame(Detail(CpuTempCKey), p.cpuTemp, q.cpuTemp, Detail(GpuTempCKey), p.gpuTemp, q.gpuTemp,
              Detail(CpuFanRpmKey), p.cpuFan, q.cpuFan,
              Member(Detail(GpuFanRpmKey), p.gpuFan, a), Member(Detail(GpuFanRpmKey), q.gpuFan, b));
  }

  lemma TailSame(transaction: Json, transaction': Json, thermal: Json, thermal': Json)
    requires Same(transaction, transaction') && Same(thermal, thermal')
    ensures PrintRest(TailMembers(transaction, thermal)) == PrintRest(TailMembers(transaction', thermal'))
  {
    OneSame(Top(ThermalKey), thermal, thermal', End, End);
    OneSame(Top(TransactionKey), transaction, transaction', Member(Top(ThermalKey), thermal, End),
            Member(Top(ThermalKey), thermal', End));
  }

  lemma ApplySame(p: Pieces, q: Pieces, rest: Members, other: Members)
    requires SameApply(p, q) && PrintRest(rest) == PrintRest(other)
    ensures PrintRest(ApplyMembers(p, rest)) == PrintRest(ApplyMembers(q, other))
  {
    var a, b := Member(Top(LastApplyTargetKey), p.applyTarget, rest), Member(Top(LastApplyTargetKey), q.applyTarget,
                                                                             other);
    OneSame(Top(LastApplyTargetKey), p.applyTarget, q.applyTarget, rest, other);
    OneSame(Top(LastApplyHardwareWriteKey), p.applyWrite, q.applyWrite, a, b);
    ThreeSame(Top(LastApplyStageKey), p.applyStage, q.applyStage, Top(LastApplyBackendKey), p.applyBackend,
              q.applyBackend,
              Top(LastApplyErrorKey), p.applyError, q.applyError,
              Member(Top(LastApplyHardwareWriteKey), p.applyWrite, a), Member(Top(LastApplyHardwareWriteKey),
                                                                              q.applyWrite, b));
  }

  lemma CurrentSame(p: Pieces, q: Pieces, rest: Members, other: Members)
    requires SameCurrent(p, q) && PrintRest(rest) == PrintRest(other)
    ensures PrintRest(CurrentMembers(p, rest)) == PrintRest(CurrentMembers(q, other))
  {
    OneSame(Top(PendingKey), p.pending, q.pending, rest, other);
    ThreeSame(Top(RequestedKey), p.requested, q.requested, Top(EffectiveKey), p.effective, q.effective,
              Top(EffectiveMetaKey), p.meta, q.meta,
              Member(Top(PendingKey), p.pending, rest), Member(Top(PendingKey), q.pending, other));
  }

  lemma HeadSame(s: Snapshot, c: Capabilities, p: Pieces, q: Pieces, rest: Members, other: Members)
    requires SameHead(p, q) && PrintRest(rest) == PrintRest(other)
    ensures Same(Object(HeadMembers(s, c, p, rest)), Object(HeadMembers(s, c, q, other)))
  {
    var write, support := Bool(s.hardwareWrite), Object(SupportMembers(c));
    var a := Member(Top(ExecutionKey), p.execution,
                    Member(Top(HardwareWriteKey), write, Member(Top(SupportKey), support, rest)));
    var b := Member(Top(ExecutionKey), q.execution,
                    Member(Top(HardwareWriteKey), write, Member(Top(SupportKey), support, other)));
    ThreeSame(Top(ExecutionKey), p.execution, q.execution, Top(HardwareWriteKey), write, write, Top(SupportKey),
              support, support, rest, other);
    OneSame(Top(BackendFallbackReasonKey), p.reason, q.reason, a, b);
    var service, name := Text(ServiceName()), Text(s.backendName);
    ThreeSame(Top(ServiceKey), service, service, Top(BackendKey), name, name, Top(BackendSelectedKey), p.selected,
              q.selected,
              Member(Top(BackendFallbackReasonKey), p.reason, a), Member(Top(BackendFallbackReasonKey), q.reason, b));
  }

  lemma StateSame(s: Snapshot, c: Capabilities, p: Pieces)
    requires var q := PiecesOf(s);
      SameHead(p, q) && SameCurrent(p, q) && SameApply(p, q) && SameTransaction(p, q) && SameThermal(p, q)
    ensures Same(Object(StateMembers(s, c, p)), StateTree(s, c))
  {
    var q := PiecesOf(s);
    TransactionSame(s, p, q);
    ThermalSame(p, q);
    TailSame(TransactionObject(s, p), TransactionObject(s, q), ThermalObject(p), ThermalObject(q));
    var tail, tail' := TailMembers(TransactionObject(s, p), ThermalObject(p)), TailMembers(TransactionObject(s, q),
                                                                                           ThermalObject(q));
    ApplySame(p, q, tail, tail');
    CurrentSame(p, q, ApplyMembers(p, tail), ApplyMembers(q, tail'));
    HeadSame(s, c, p, q, CurrentMembers(p, ApplyMembers(p, tail)), CurrentMembers(q, ApplyMembers(q, tail')));
  }

  method AppendTargetOrNull(present: bool, t: Target) returns (buffer: string)
    ensures buffer == Print(TargetOrNull(present, t))
  {
    if present {
      buffer := AppendTarget(256, t);
    } else {
      Whole(Null, 4, 256);
      buffer := Truncate("null", 256);
    }
  }

  method AppendErrorOrNull(error: Status) returns (buffer: string)
    ensures buffer == Print(ErrorOrNull(error))
  {
    Whole(ErrorOrNull(error), 33, 64);
    if error == Ok {
      buffer := Truncate("null", 64);
    } else {
      buffer := Truncate(Quote(StatusText(error)), 64);
    }
  }

  function Unrendered(): Pieces
  {
    Pieces(Null, Null, Null, Null, Null, Null, Null, Null, Null, Null, Null, Null, Null, Null, Null, Null, Null, Null,
           Null, Null)
  }

  /** The row of buffers, in the order they are filled. */
  method RenderTargets(s: Snapshot) returns (p: Pieces)
    ensures SameHead(p, PiecesOf(s)) && SameCurrent(p, PiecesOf(s))
  {
    var requested := AppendTarget(256, s.requested);
    var effective := AppendTarget(256, s.effective);
    var meta := AppendEffectiveMeta(1024, s.meta);
    var pending := AppendTargetOrNull(s.transaction.hasPending, s.transaction.pending);
    var execution := AppendExecution(320, s.execution);
    var selected := AppendName(64, s.selected);
    var reason := AppendName(256, s.fallbackReason);
    p := Unrendered().(requested := Raw(requested), effective := Raw(effective), meta := Raw(meta),
                       pending := Raw(pending),
                      execution := Raw(execution), selected := Raw(selected), reason := Raw(reason));
  }

  method RenderApply(s: Snapshot, before: Pieces) returns (p: Pieces)
    requires SameHead(before, PiecesOf(s)) && SameCurrent(before, PiecesOf(s))
    ensures SameHead(p, PiecesOf(s)) && SameCurrent(p, PiecesOf(s)) && SameApply(p, PiecesOf(s))
  {
    var stage := AppendName(128, s.lastApply.stage);
    var backend := AppendName(64, s.lastApply.backend);
    var target := AppendTargetOrNull(s.lastApply.hasTarget, s.lastApply.target);
    var error := AppendErrorOrNull(s.lastApply.error);
    var write := AppendBoolOrNull(16, s.lastApply.hasHardwareWrite, s.lastApply.hardwareWrite);
    p := before.(applyStage := Raw(stage), applyBackend := Raw(backend), applyTarget := Raw(target),
                 applyError := Raw(error), applyWrite := Raw(write));
  }

  method RenderTransaction(s: Snapshot, before: Pieces) returns (p: Pieces)
    requires SameHead(before, PiecesOf(s)) && SameCurrent(before, PiecesOf(s)) && SameApply(before, PiecesOf(s))
    ensures SameHead(p, PiecesOf(s)) && SameCurrent(p, PiecesOf(s)) && SameApply(p, PiecesOf(s)) &&
      SameTransaction(p, PiecesOf(s))
  {
    var operation := AppendName(64, s.transaction.operation);
    var stage := AppendName(128, s.transaction.stage);
    var error := AppendErrorOrNull(s.transaction.lastError);
    p := before.(operation := Raw(operation), stage := Raw(stage), lastError := Raw(error));
  }

  method RenderThermal(t: Thermal, before: Pieces) returns (p: Pieces)
    ensures p == before.(cpuTemp := p.cpuTemp, gpuTemp := p.gpuTemp, cpuFan := p.cpuFan, gpuFan := p.gpuFan,
                         level := p.level)
    ensures Same(p.cpuTemp, NumberOrNull(t.hasCpuTemp, t.cpuTemp)) &&
      Same(p.gpuTemp, NumberOrNull(t.hasGpuTemp, t.gpuTemp))
    ensures Same(p.cpuFan, NumberOrNull(t.hasCpuFan, t.cpuFan)) && Same(p.gpuFan, NumberOrNull(t.hasGpuFan, t.gpuFan))
    ensures Same(p.level, NumberOrNull(t.hasVendorLevel, t.vendorLevel))
  {
    var cpuTemp := AppendNumberOrNull(32, t.hasCpuTemp, t.cpuTemp);
    var gpuTemp := AppendNumberOrNull(32, t.hasGpuTemp, t.gpuTemp);
    var cpuFan := AppendNumberOrNull(32, t.hasCpuFan, t.cpuFan);
    var gpuFan := AppendNumberOrNull(32, t.hasGpuFan, t.gpuFan);
    var level := AppendNumberOrNull(32, t.hasVendorLevel, t.vendorLevel);
    p := before.(cpuTemp := Raw(cpuTemp), gpuTemp := Raw(gpuTemp), cpuFan := Raw(cpuFan), gpuFan := Raw(gpuFan),
                 level := Raw(level));
  }

  /** `lcc_state_render_json`: the text of the state tree, cut only by the caller's buffer, and never by one of its
      own. */
  method RenderJson(s: Snapshot, c: Capabilities, capacity: nat) returns (status: Status, buffer: string)
    ensures capacity == 0 ==> status == InvalidArgument
    ensures capacity > 0 ==> buffer == Truncate(Print(StateTree(s, c)), capacity)
    ensures capacity > 0 ==> (status == Ok <==> |Print(StateTree(s, c))| < capacity)
    ensures capacity > 0 && status != Ok ==> status == BufferTooSmall
  {
    buffer := "";
    if capacity == 0 {
      return InvalidArgument, buffer;
    }
    var p := RenderTargets(s);
    p := RenderApply(s, p);
    p := RenderTransaction(s, p);
    p := RenderThermal(s.thermal, p);
    StateSame(s, c, p);
    var text := Print(Object(StateMembers(s, c, p)));
    buffer := Truncate(text, capacity);
    status := if |text| >= capacity then BufferTooSmall else Ok;
  }

  /** The daemon's buffer is always wide enough, so rendering for `GetState` cannot fail. */
  method GetStateJson(s: Snapshot, c: Capabilities) returns (status: Status, buffer: string)
    ensures status == Ok && buffer == Print(StateTree(s, c))
  {
    StateWidth(s, c);
    status, buffer := RenderJson(s, c, 4096);
  }
}
