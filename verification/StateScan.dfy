// Scanning a rendered state gives back exactly what was rendered for each name.
module StateScan {
  import opened Types
  import opened Keys
  import opened JsonText
  import opened StateTexts
  import opened Scanner

  // ----- states whose text means itself

  predicate CleanText(t: string, key: Key) { PlainText(t) && t != KeyText(key) }

  predicate CleanTarget(t: Target, key: Key) { CleanText(t.profile, key) && CleanText(t.fanTable, key) }

  predicate CleanComponent(a: Attribution, key: Key) { CleanText(a.source, key) && CleanText(a.freshness, key) }

  predicate CleanMeta(m: Meta, key: Key)
  {
    && CleanText(m.source, key) && CleanText(m.freshness, key)
    && CleanComponent(m.profile, key) && CleanComponent(m.fanTable, key) && CleanComponent(m.fanBoost, key)
    && CleanComponent(m.power, key) && CleanComponent(m.thermal, key)
    && CleanComponent(m.fields.pl1, key) && CleanComponent(m.fields.pl2, key)
    && CleanComponent(m.fields.pl4, key) && CleanComponent(m.fields.tcc, key)
  }

  predicate CleanExecution(e: Execution, key: Key)
  {
    && CleanText(e.readState, key) && CleanText(e.applyProfile, key) && CleanText(e.applyMode, key)
    && CleanText(e.applyPower, key) && CleanText(e.applyFanTable, key) && CleanText(e.applyFanBoost, key)
  }

  /** Every string that is printed needs no escaping, contains no brace, and does not read like the key. */
  predicate CleanState(s: Snapshot, key: Key)
  {
    && CleanText(s.backendName, key) && CleanText(s.selected, key) && CleanText(s.fallbackReason, key)
    && CleanExecution(s.execution, key) && CleanTarget(s.requested, key) && CleanTarget(s.effective, key)
    && CleanMeta(s.meta, key)
    && CleanText(s.lastApply.stage, key) && CleanText(s.lastApply.backend, key)
    && (s.lastApply.hasTarget ==> CleanTarget(s.lastApply.target, key))
    && CleanText(s.transaction.operation, key) && CleanText(s.transaction.stage, key)
    && (s.transaction.hasPending ==> CleanTarget(s.transaction.pending, key))
  }

  // ----- what a search passes over

  predicate Passed(v: Json, key: Key) { Tidy(v) && NoText(v, key) && First(v, key).None? }

  predicate PassedIn(ms: Members, key: Key) { TidyMembers(ms) && NoTextIn(ms, key) && FirstIn(ms, key).None? }

  lemma Pass(k: Key, v: Json, rest: Members, key: Key)
    requires k != key && Passed(v, key) && PassedIn(rest, key)
    ensures PassedIn(Member(k, v, rest), key)
  {
  }

  lemma PassThree(k1: Key, v1: Json, k2: Key, v2: Json, k3: Key, v3: Json, rest: Members, key: Key)
    requires k1 != key && k2 != key && k3 != key
    requires Passed(v1, key) && Passed(v2, key) && Passed(v3, key) && PassedIn(rest, key)
    ensures PassedIn(Member(k1, v1, Member(k2, v2, Member(k3, v3, rest))), key)
  {
    Pass(k3, v3, rest, key);
    Pass(k2, v2, Member(k3, v3, rest), key);
    Pass(k1, v1, Member(k2, v2, Member(k3, v3, rest)), key);
  }

  lemma PassString(t: string, key: Key)
    requires CleanText(t, key)
    ensures Passed(Text(t), key) && Passed(StringOrNull(t), key)
  {
  }

  lemma PassLeaves(key: Key)
    ensures Passed(Null, key)
    ensures forall b: bool :: Passed(Bool(b), key)
    ensures forall p: bool, b: bool :: Passed(BoolOrNull(p, b), key)
    ensures forall p: bool, n: nat :: Passed(NumberOrNull(p, n), key)
  {
  }

  lemma NotAWord(t: string, i: nat)
    requires i < |t| && t[i] == ' '
    ensures !Word(t)
  {
    assert !WordChar(t[i]);
  }

  lemma SpaceInError(error: Status) returns (i: int)
    requires error != Ok
    ensures 0 <= i < |StatusText(error)| && StatusText(error)[i] == ' '
  {
    i := match error
      case InvalidArgument => 7
      case IoError => 2
      case Permission => 10
      case ParseError => 5
      case RangeError => 5
      case BufferTooSmall => 6
      case _ => 3;
  }

  predicate OfFiles(error: Status) { error.IoError? || error.NotFound? || error.Permission? || error.ParseError? }

  lemma FileErrorPlain(error: Status)
    requires OfFiles(error)
    ensures PlainText(StatusText(error))
  {
  }

  lemma OtherErrorPlain(error: Status)
    requires !OfFiles(error)
    ensures PlainText(StatusText(error))
  {
  }

  /** An error text has a space, and no key has one. */
  lemma PassError(error: Status, key: Key)
    ensures Passed(ErrorOrNull(error), key)
  {
    if error != Ok {
      var i := SpaceInError(error);
      NotAWord(StatusText(error), i);
      KeyIsWord(key);
      if OfFiles(error) {
        FileErrorPlain(error);
      } else {
        OtherErrorPlain(error);
      }
    }
  }

  lemma PassFields(pl1: Json, pl2: Json, pl4: Json, tcc: Json, key: Key)
    requires key.Top? && Passed(pl1, key) && Passed(pl2, key) && Passed(pl4, key) && Passed(tcc, key)
    ensures Passed(Object(FieldMembers(pl1, pl2, pl4, tcc)), key)
  {
    Pass(Field(TccOffsetKey), tcc, End, key);
    PassThree(Field(Pl1Key), pl1, Field(Pl2Key), pl2, Field(Pl4Key), pl4, Member(Field(TccOffsetKey), tcc, End), key);
  }

  lemma PassTarget(t: Target, key: Key)
    requires key.Top? && CleanTarget(t, key)
    ensures Passed(TargetTree(t), key)
  {
    PassLeaves(key);
    PassString(t.profile, key);
    PassString(t.fanTable, key);
    PassFields(ByteJson(t.power.pl1), ByteJson(t.power.pl2), ByteJson(t.power.pl4), ByteJson(t.power.tcc), key);
    Pass(Field(PowerKey), PowerTree(t), End, key);
    PassThree(Field(ProfileKey), Text(t.profile), Field(FanTableKey), Text(t.fanTable),
              Field(FanBoostKey), BoolOrNull(t.hasBoost, t.boost), Member(Field(PowerKey), PowerTree(t), End), key);
  }

  lemma PassTargetOrNull(present: bool, t: Target, key: Key)
    requires key.Top? && (present ==> CleanTarget(t, key))
    ensures Passed(TargetOrNull(present, t), key)
  {
    if present {
      PassTarget(t, key);
    } else {
      PassLeaves(key);
    }
  }

  lemma PassComponent(a: Attribution, key: Key)
    requires key.Top? && CleanComponent(a, key)
    ensures Passed(ComponentTree(a), key)
  {
    PassString(a.source, key);
    PassString(a.freshness, key);
    var tail := Member(Field(FreshnessKey), StringOrNull(a.freshness), End);
    Pass(Field(FreshnessKey), StringOrNull(a.freshness), End, key);
    Pass(Field(SourceKey), StringOrNull(a.source), tail, key);
  }

  lemma PassSummary(source: string, freshness: string, inside: Key, of: Members, key: Key)
    requires key.Top? && inside != key && CleanText(source, key) && CleanText(freshness, key) && Passed(Object(of), key)
    ensures Passed(Object(SummaryMembers(StringOrNull(source), StringOrNull(freshness), inside, of)), key)
  {
    PassString(source, key);
    PassString(freshness, key);
    PassThree(Field(SourceKey), StringOrNull(source), Field(FreshnessKey), StringOrNull(freshness), inside, Object(of),
              End, key);
  }

  lemma PassPowerAttribution(m: Meta, key: Key)
    requires key.Top? && CleanMeta(m, key)
    ensures Passed(PowerAttributionTree(m), key)
  {
    var p1, p2, p4, pt := ComponentTree(m.fields.pl1), ComponentTree(m.fields.pl2), ComponentTree(m.fields.pl4),
        ComponentTree(m.fields.tcc);
    PassComponent(m.fields.pl1, key);
    PassComponent(m.fields.pl2, key);
    PassComponent(m.fields.pl4, key);
    PassComponent(m.fields.tcc, key);
    PassFields(p1, p2, p4, pt, key);
    PassSummary(m.power.source, m.power.freshness, Field(FieldsKey), FieldMembers(p1, p2, p4, pt), key);
  }

  lemma PassMeta(m: Meta, key: Key)
    requires key.Top? && key != Top(ThermalKey) && CleanMeta(m, key)
    ensures Passed(MetaTree(m), key)
  {
    PassComponent(m.profile, key);
    PassComponent(m.fanTable, key);
    PassComponent(m.fanBoost, key);
    PassPowerAttribution(m, key);
    PassComponent(m.thermal, key);
    var last := Member(Top(ThermalKey), ComponentTree(m.thermal), End);
    var power := Member(Field(PowerKey), PowerAttributionTree(m), last);
    Pass(Top(ThermalKey), ComponentTree(m.thermal), End, key);
    Pass(Field(PowerKey), PowerAttributionTree(m), last, key);
    PassThree(Field(ProfileKey), ComponentTree(m.profile), Field(FanTableKey), ComponentTree(m.fanTable),
              Field(FanBoostKey), ComponentTree(m.fanBoost), power, key);
    PassSummary(m.source, m.freshness, Field(ComponentsKey),
                ComponentListMembers(ComponentTree(m.profile), ComponentTree(m.fanTable), ComponentTree(m.fanBoost),
                                     PowerAttributionTree(m), ComponentTree(m.thermal)), key);
  }

  lemma PassExecution(e: Execution, key: Key)
    requires key.Top? && CleanExecution(e, key)
    ensures Passed(ExecutionTree(e), key)
  {
    PassString(e.readState, key);
    PassString(e.applyProfile, key);
    PassString(e.applyMode, key);
    PassString(e.applyPower, key);
    PassString(e.applyFanTable, key);
    PassString(e.applyFanBoost, key);
    var v4, v5, v6 := StringOrNull(e.applyPower), StringOrNull(e.applyFanTable), StringOrNull(e.applyFanBoost);
    PassThree(Route(ApplyPowerLimitsKey), v4, Route(ApplyFanTableKey), v5, Route(ApplyFanBoostKey), v6, End, key);
    PassThree(Route(ReadStateKey), StringOrNull(e.readState), Route(ApplyProfileKey), StringOrNull(e.applyProfile),
              Route(ApplyModeKey), StringOrNull(e.applyMode),
              Member(Route(ApplyPowerLimitsKey), v4,
                     Member(Route(ApplyFanTableKey), v5, Member(Route(ApplyFanBoostKey), v6, End))), key);
  }

  lemma PassSupport(c: Capabilities, key: Key)
    requires key.Top?
    ensures Passed(Object(SupportMembers(c)), key)
  {
    PassLeaves(key);
    PassThree(Route(PlatformProfileKey), Bool(c.hasPlatformProfile), Route(PowercapKey), Bool(c.hasPowercap),
              Route(MuxRebootRequiredKey), Bool(c.needsReboot), End, key);
    var v4, v5, v6 := Bool(c.canPower), Bool(c.canFanTable), Bool(c.canFanBoost);
    PassThree(Route(ApplyPowerLimitsKey), v4, Route(ApplyFanTableKey), v5, Route(ApplyFanBoostKey), v6,
              HardwareMembers(c), key);
    PassThree(Route(ReadStateKey), Bool(c.canRead), Route(ApplyProfileKey), Bool(c.canProfile), Route(ApplyModeKey),
              Bool(c.canMode),
              Member(Route(ApplyPowerLimitsKey), v4,
                     Member(Route(ApplyFanTableKey), v5,
                            Member(Route(ApplyFanBoostKey), v6, HardwareMembers(c)))), key);
  }

  // ----- reaching a name

  predicate Reached(ms: Members, key: Key, value: Json)
  {
    NoTextIn(ms, key) && FirstIn(ms, key) == Some(value)
  }

  /** One member nearer the front: the name is here, or it is `later` and the search passes over this value. */
  lemma Step(k: Key, v: Json, rest: Members, key: Key, value: Json, later: bool)
    requires Tidy(v) && (k != key ==> Passed(v, key)) && TidyMembers(rest)
    requires later ==> Reached(rest, key, value)
    requires k == key ==> v == value
    ensures TidyMembers(Member(k, v, rest))
    ensures later || k == key ==> Reached(Member(k, v, rest), key, value)
  {
  }

  lemma TwoSteps(k1: Key, v1: Json, k2: Key, v2: Json, rest: Members, key: Key, value: Json, later: bool)
    requires Tidy(v1) && (k1 != key ==> Passed(v1, key)) && Tidy(v2) && (k2 != key ==> Passed(v2, key)) &&
      TidyMembers(rest)
    requires later ==> Reached(rest, key, value)
    requires (k1 == key ==> v1 == value) && (k2 == key ==> v2 == value)
    ensures TidyMembers(Member(k1, v1, Member(k2, v2, rest)))
    ensures later || k1 == key || k2 == key ==> Reached(Member(k1, v1, Member(k2, v2, rest)), key, value)
  {
    Step(k2, v2, rest, key, value, later);
    Step(k1, v1, Member(k2, v2, rest), key, value, later || k2 == key);
  }

  /** What is rendered for a name of the published object. */
  function ValueFor(s: Snapshot, c: Capabilities, key: TopKey): Json
  {
    var p := PiecesOf(s);
    match key
    case ServiceKey => Text(ServiceName())
    case BackendKey => Text(s.backendName)
    case BackendSelectedKey => p.selected
    case BackendFallbackReasonKey => p.reason
    case ExecutionKey => p.execution
    case HardwareWriteKey => Bool(s.hardwareWrite)
    case SupportKey => Object(SupportMembers(c))
    case RequestedKey => p.requested
    case EffectiveKey => p.effective
    case EffectiveMetaKey => p.meta
    case PendingKey => p.pending
    case LastApplyStageKey => p.applyStage
    case LastApplyBackendKey => p.applyBackend
    case LastApplyErrorKey => p.applyError
    case LastApplyHardwareWriteKey => p.applyWrite
    case LastApplyTargetKey => p.applyTarget
    case TransactionKey => TransactionObject(s, p)
    case ThermalKey => ThermalObject(p)
  }

  predicate InFront(key: TopKey)
  {
    key.ServiceKey? || key.BackendKey? || key.BackendSelectedKey? || key.BackendFallbackReasonKey?
  }

  predicate InApply(key: TopKey)
  {
    || key.LastApplyStageKey? || key.LastApplyBackendKey? || key.LastApplyErrorKey? || key.LastApplyHardwareWriteKey?
    || key.LastApplyTargetKey?
  }

  predicate InCurrent(key: TopKey)
  {
    key.RequestedKey? || key.EffectiveKey? || key.EffectiveMetaKey? || key.PendingKey?
  }

  predicate Behind(key: TopKey) { InCurrent(key) || InApply(key) || key.TransactionKey? || key.ThermalKey? }

  lemma {:induction false} NumbersTidy(s: Snapshot)
    ensures Tidy(ThermalObject(PiecesOf(s)))
  {
    var p := PiecesOf(s);
    assert TidyMembers(End);
    var last := Member(Detail(VendorFanLevelKey), p.level, End);
    assert TidyMembers(last);
    var m4 := Member(Detail(GpuFanRpmKey), p.gpuFan, last);
    assert TidyMembers(m4);
    var m3 := Member(Detail(CpuFanRpmKey), p.cpuFan, m4);
    assert TidyMembers(m3);
    assert TidyMembers(Member(Detail(GpuTempCKey), p.gpuTemp, m3));
  }

  lemma TransactionTidy(s: Snapshot, key: Key)
    requires CleanState(s, key)
    ensures Tidy(TransactionObject(s, PiecesOf(s)))
  {
    var p := PiecesOf(s);
    PassString(s.transaction.operation, key);
    PassString(s.transaction.stage, key);
    PassError(s.transaction.lastError, key);
    var last := Member(Detail(LastErrorKey), p.lastError, End);
    assert TidyMembers(last);
    var m3 := Member(Detail(StageKey), p.stage, last);
    assert TidyMembers(m3);
    assert TidyMembers(Member(Detail(OperationKey), p.operation, m3));
  }

  lemma ReachInTail(s: Snapshot, c: Capabilities, key: TopKey)
    requires CleanState(s, Top(key))
    ensures var p := PiecesOf(s); var tail := TailMembers(TransactionObject(s, p), ThermalObject(p));
      TidyMembers(tail) && (key == TransactionKey ==> Reached(tail, Top(key), ValueFor(s, c, key)))
  {
    NumbersTidy(s);
    TransactionTidy(s, Top(key));
  }

  lemma ReachInApply(s: Snapshot, c: Capabilities, key: TopKey, rest: Members)
    requires CleanState(s, Top(key)) && TidyMembers(rest)
    requires key == TransactionKey ==> Reached(rest, Top(key), ValueFor(s, c, key))
    ensures var ms := ApplyMembers(PiecesOf(s), rest);
      TidyMembers(ms) && (InApply(key) || key == TransactionKey ==> Reached(ms, Top(key), ValueFor(s, c, key)))
  {
    var p, k, x := PiecesOf(s), Top(key), ValueFor(s, c, key);
    PassLeaves(k);
    PassString(s.lastApply.stage, k);
    PassString(s.lastApply.backend, k);
    PassError(s.lastApply.error, k);
    PassTargetOrNull(s.lastApply.hasTarget, s.lastApply.target, k);
    var m4 := Member(Top(LastApplyHardwareWriteKey), p.applyWrite,
                     Member(Top(LastApplyTargetKey), p.applyTarget, rest));
    TwoSteps(Top(LastApplyHardwareWriteKey), p.applyWrite, Top(LastApplyTargetKey), p.applyTarget, rest, k, x,
             key == TransactionKey);
    var later := key == TransactionKey || key == LastApplyTargetKey || key == LastApplyHardwareWriteKey;
    TwoSteps(Top(LastApplyBackendKey), p.applyBackend, Top(LastApplyErrorKey), p.applyError, m4, k, x, later);
    Step(Top(LastApplyStageKey), p.applyStage,
         Member(Top(LastApplyBackendKey), p.applyBackend, Member(Top(LastApplyErrorKey), p.applyError, m4)),
         k, x, later || key == LastApplyBackendKey || key == LastApplyErrorKey);
  }

  lemma ReachInCurrent(s: Snapshot, c: Capabilities, key: TopKey, rest: Members)
    requires key != ThermalKey && CleanState(s, Top(key)) && TidyMembers(rest)
    requires InApply(key) || key == TransactionKey ==> Reached(rest, Top(key), ValueFor(s, c, key))
    ensures var ms := CurrentMembers(PiecesOf(s), rest);
      TidyMembers(ms) && (InCurrent(key) || InApply(key) || key == TransactionKey ==>
                          Reached(ms, Top(key), ValueFor(s, c, key)))
  {
    var p, k, x := PiecesOf(s), Top(key), ValueFor(s, c, key);
    PassTarget(s.requested, k);
    PassTarget(s.effective, k);
    PassMeta(s.meta, k);
    PassTargetOrNull(s.transaction.hasPending, s.transaction.pending, k);
    var later := InApply(key) || key == TransactionKey;
    var m3 := Member(Top(EffectiveMetaKey), p.meta, Member(Top(PendingKey), p.pending, rest));
    TwoSteps(Top(EffectiveMetaKey), p.meta, Top(PendingKey), p.pending, rest, k, x, later);
    TwoSteps(Top(RequestedKey), p.requested, Top(EffectiveKey), p.effective, m3, k, x, later ||
             key == EffectiveMetaKey || key == PendingKey);
  }

  lemma ServiceIsNoKey(key: Key)
    ensures Passed(Text(ServiceName()), key)
  {
    Spelled(key);
    NoFourLetterKey(key);
  }

  lemma NoFourLetterKey(key: Key)
    ensures KeyLength(key) != 4
  {
  }

  /** The first four names. */
  lemma ReachInFront(s: Snapshot, c: Capabilities, key: TopKey, rest: Members, value: Json)
    requires CleanState(s, Top(key)) && TidyMembers(rest)
    requires if InFront(key) then value == ValueFor(s, c, key) else Reached(rest, Top(key), value)
    ensures var ms := FrontMembers(s, PiecesOf(s), rest);
      TidyMembers(ms) && Reached(ms, Top(key), value)
  {
    var p, k, x := PiecesOf(s), Top(key), value;
    ServiceIsNoKey(k);
    PassString(s.backendName, k);
    PassString(s.selected, k);
    PassString(s.fallbackReason, k);
    var later := !InFront(key);
    var m3 := Member(Top(BackendSelectedKey), p.selected, Member(Top(BackendFallbackReasonKey), p.reason, rest));
    TwoSteps(Top(BackendSelectedKey), p.selected, Top(BackendFallbackReasonKey), p.reason, rest, k, x, later);
    TwoSteps(Top(ServiceKey), Text(ServiceName()), Top(BackendKey), Text(s.backendName), m3, k, x,
             later || key == BackendSelectedKey || key == BackendFallbackReasonKey);
  }

  lemma MiddleSteps(execution: Json, write: Json, support: Json, rest: Members, key: Key, value: Json, later: bool)
    requires Passed(execution, key) && Passed(write, key) && Passed(support, key) && TidyMembers(rest)
    requires later ==> Reached(rest, key, value)
    requires key == Top(ExecutionKey) ==> execution == value
    requires key == Top(HardwareWriteKey) ==> write == value
    requires key == Top(SupportKey) ==> support == value
    ensures var ms := MiddleMembers(execution, write, support, rest);
      TidyMembers(ms)
      && (later || key == Top(ExecutionKey) || key == Top(HardwareWriteKey) || key == Top(SupportKey) ==>
          Reached(ms, key, value))
  {
    Step(Top(SupportKey), support, rest, key, value, later);
    TwoSteps(Top(ExecutionKey), execution, Top(HardwareWriteKey), write, Member(Top(SupportKey), support, rest), key,
             value,
             later || key == Top(SupportKey));
  }

  /** The next three. */
  lemma ReachInMiddle(s: Snapshot, c: Capabilities, key: TopKey, rest: Members, value: Json)
    requires CleanState(s, Top(key)) && TidyMembers(rest)
    requires Behind(key) ==> Reached(rest, Top(key), value)
    requires !Behind(key) ==> value == ValueFor(s, c, key)
    ensures var ms := MiddleMembers(ExecutionTree(s.execution), Bool(s.hardwareWrite), Object(SupportMembers(c)), rest);
      TidyMembers(ms) && (!InFront(key) ==> Reached(ms, Top(key), value))
  {
    PassLeaves(Top(key));
    PassExecution(s.execution, Top(key));
    PassSupport(c, Top(key));
    MiddleSteps(ExecutionTree(s.execution), Bool(s.hardwareWrite), Object(SupportMembers(c)), rest, Top(key), value,
                Behind(key));
  }

  lemma ReachInHead(s: Snapshot, c: Capabilities, key: TopKey, rest: Members, value: Json)
    requires CleanState(s, Top(key)) && TidyMembers(rest)
    requires if Behind(key) then Reached(rest, Top(key), value) else value == ValueFor(s, c, key)
    ensures var ms := HeadMembers(s, c, PiecesOf(s), rest); TidyMembers(ms) && Reached(ms, Top(key), value)
  {
    ReachInMiddle(s, c, key, rest, value);
    ReachInFront(s, c, key, MiddleMembers(ExecutionTree(s.execution), Bool(s.hardwareWrite), Object(SupportMembers(c)),
                                          rest), value);
  }

  lemma ReachBehind(s: Snapshot, c: Capabilities, key: TopKey)
    requires key != ThermalKey && CleanState(s, Top(key))
    ensures var p := PiecesOf(s);
      var current := CurrentMembers(p, ApplyMembers(p, TailMembers(TransactionObject(s, p), ThermalObject(p))));
      TidyMembers(current) && (Behind(key) ==> Reached(current, Top(key), ValueFor(s, c, key)))
  {
    var p := PiecesOf(s);
    var tail := TailMembers(TransactionObject(s, p), ThermalObject(p));
    ReachInTail(s, c, key);
    ReachInApply(s, c, key, tail);
    ReachInCurrent(s, c, key, ApplyMembers(p, tail));
  }

  lemma FirstIsRendered(s: Snapshot, c: Capabilities, key: TopKey)
    requires key != ThermalKey && CleanState(s, Top(key))
    ensures var v := StateTree(s, c);
      Tidy(v) && NoText(v, Top(key)) && First(v, Top(key)) == Some(ValueFor(s, c, key))
  {
    var p := PiecesOf(s);
    var current := CurrentMembers(p, ApplyMembers(p, TailMembers(TransactionObject(s, p), ThermalObject(p))));
    ReachBehind(s, c, key);
    ReachInHead(s, c, key, current, ValueFor(s, c, key));
  }

  // ----- the theorem

  /** For every clean state the output is one balanced object, and scanning it for any of its names except "thermal"
      returns exactly the text rendered for that name, if it fits the caller's buffer. */
  lemma ScanInvertsRender(s: Snapshot, c: Capabilities, key: TopKey, capacity: nat)
    requires key != ThermalKey && CleanState(s, Top(key)) && capacity > 0
    ensures OneObject(Print(StateTree(s, c)))
    ensures var text := Print(ValueFor(s, c, key));
      Extract(Print(StateTree(s, c)), Quote(TopText(key)), capacity) ==
        if |text| < capacity then Extracted(Ok, Some(text)) else Extracted(BufferTooSmall, None)
  {
    FirstIsRendered(s, c, key);
    PrintsOneObject(StateTree(s, c));
    ExtractInvertsPrint(StateTree(s, c), Top(key), capacity);
  }

  // ----- the one name that is not its own first occurrence

  lemma Through(k: Key, v: Json, rest: Members, key: Key, value: Json)
    requires k != key && Tidy(v) && NoText(v, key) && First(v, key) == Some(value) && TidyMembers(rest)
    ensures TidyMembers(Member(k, v, rest)) && Reached(Member(k, v, rest), key, value)
  {
  }

  lemma ThermalInMeta(m: Meta)
    requires CleanMeta(m, Top(ThermalKey))
    ensures var v, k := MetaTree(m), Top(ThermalKey);
      Tidy(v) && NoText(v, k) && First(v, k) == Some(ComponentTree(m.thermal))
  {
    var k, x := Top(ThermalKey), ComponentTree(m.thermal);
    PassComponent(m.profile, k);
    PassComponent(m.fanTable, k);
    PassComponent(m.fanBoost, k);
    PassPowerAttribution(m, k);
    PassComponent(m.thermal, k);
    var last := Member(k, x, End);
    Step(k, x, End, k, x, false);
    TwoSteps(Field(FanBoostKey), ComponentTree(m.fanBoost), Field(PowerKey), PowerAttributionTree(m), last, k, x, true);
    var rest := Member(Field(FanBoostKey), ComponentTree(m.fanBoost),
                       Member(Field(PowerKey), PowerAttributionTree(m), last));
    TwoSteps(Field(ProfileKey), ComponentTree(m.profile), Field(FanTableKey), ComponentTree(m.fanTable), rest, k, x,
             true);
    var components := Object(Member(Field(ProfileKey), ComponentTree(m.profile),
                                    Member(Field(FanTableKey), ComponentTree(m.fanTable), rest)));
    PassString(m.source, k);
    PassString(m.freshness, k);
    Through(Field(ComponentsKey), components, End, k, x);
    TwoSteps(Field(SourceKey), StringOrNull(m.source), Field(FreshnessKey), StringOrNull(m.freshness),
             Member(Field(ComponentsKey), components, End), k, x, true);
  }

  lemma ThermalInState(s: Snapshot, c: Capabilities)
    requires CleanState(s, Top(ThermalKey))
    ensures var v, k := StateTree(s, c), Top(ThermalKey);
      Tidy(v) && NoText(v, k) && First(v, k) == Some(ComponentTree(s.meta.thermal))
  {
    var p, k, x := PiecesOf(s), Top(ThermalKey), ComponentTree(s.meta.thermal);
    var applied := ApplyMembers(p, TailMembers(TransactionObject(s, p), ThermalObject(p)));
    ReachInTail(s, c, ThermalKey);
    ReachInApply(s, c, ThermalKey, TailMembers(TransactionObject(s, p), ThermalObject(p)));
    PassTarget(s.requested, k);
    PassTarget(s.effective, k);
    PassTargetOrNull(s.transaction.hasPending, s.transaction.pending, k);
    Step(Top(PendingKey), p.pending, applied, k, x, false);
    ThermalInMeta(s.meta);
    var pending := Member(Top(PendingKey), p.pending, applied);
    Through(Top(EffectiveMetaKey), p.meta, pending, k, x);
    TwoSteps(Top(RequestedKey), p.requested, Top(EffectiveKey), p.effective,
             Member(Top(EffectiveMetaKey), p.meta, pending), k, x, true);
    ReachInHead(s, c, ThermalKey, CurrentMembers(p, applied), x);
  }

  /** The anchor "thermal" first occurs among the attributions: scanning for it yields where the thermal values come
      from, never the thermal values. */
  lemma ThermalScanFindsAttribution(s: Snapshot, c: Capabilities, capacity: nat)
    requires CleanState(s, Top(ThermalKey)) && capacity > 90
    ensures Extract(Print(StateTree(s, c)), Quote(TopText(ThermalKey)), capacity)
      == Extracted(Ok, Some(Print(ComponentTree(s.meta.thermal))))
    ensures Print(ComponentTree(s.meta.thermal)) != Print(ThermalObject(PiecesOf(s)))
  {
    ThermalInState(s, c);
    ExtractInvertsPrint(StateTree(s, c), Top(ThermalKey), capacity);
    ComponentWidth(s.meta.thermal);
    WidthIsLength(ComponentTree(s.meta.thermal));
    ThermalTextsDiffer(s);
  }

  lemma FirstLetters(ms: Members)
    requires ms.Member?
    ensures var t := Print(Object(ms)); |KeyText(ms.key)| > 0 && |t| > 2 && t[2] == KeyText(ms.key)[0]
  {
    KeyIsWord(ms.key);
    ThirdCharacter(KeyText(ms.key), [':'] + (Print(ms.value) + PrintRest(ms.rest)));
  }

  lemma ThirdCharacter(key: string, more: string)
    requires key != ""
    ensures (['{'] + (Quote(key) + more) + ['}'])[2] == key[0]
  {
  }

  /** One begins with "source", the other with "cpu_temp_c". */
  lemma ThermalTextsDiffer(s: Snapshot)
    ensures Print(ComponentTree(s.meta.thermal)) != Print(ThermalObject(PiecesOf(s)))
  {
    var p := PiecesOf(s);
    FirstLetters(ComponentMembers(StringOrNull(s.meta.thermal.source), StringOrNull(s.meta.thermal.freshness)));
    FirstLetters(ThermalMembers(p.cpuTemp, p.gpuTemp, p.cpuFan, p.gpuFan, p.level));
    FieldSpelled(SourceKey);
    DetailSpelled(CpuTempCKey);
  }
}
