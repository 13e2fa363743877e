// What each AMW0 operation does to the backend state and to the EC, as functions of the state before
// and of the environment of the call (src/backends/amw0/backend.c).
module Amw0Ops {
  import opened Types
  import opened Plans
  import opened EcMemory
  import opened FanTables
  import opened PlanBuilders
  import opened Attributions
  import opened Backends
  import opened Amw0

  function Ready(): Result { ResetResult().(executor := "amw0") }

  /** The result of a write sequence: the last stage reached, and on failure the failing write's detail. */
  function Report(s: State, steps: seq<Step>, r: Run, changed: bool): Result
    requires steps != [] && r.done <= |steps| && (r.status == Ok <==> r.done == |steps|)
  {
    if r.status == Ok then SetStage(Ready(), steps[|steps| - 1].stage).(changed := changed, hardwareWrite := !s.dryRun)
    else SetDetail(SetStage(Ready(), steps[r.done].stage), steps[r.done].detail)
  }

  // ----- mode and boost

  function ShadowMode(shadow: Snapshot): Mode
  {
    match AliasToMode(shadow.effective.profile)
    case Some(mode) => mode
    case None =>
      match AliasToMode(shadow.requested.profile)
      case Some(mode) => mode
      case None => Office
  }

  function FallbackControl(shadow: Snapshot): byte
  {
    var control := ModeControl(ShadowMode(shadow));
    if (shadow.effective.hasBoost && shadow.effective.boost) || (shadow.requested.hasBoost && shadow.requested.boost)
    then WithBoost(control, true) else control
  }

  /** A successful read of the control byte is remembered. */
  function Noted(s: State, hw: Hardware): State
  {
    if Live(s, hw, MODE_CONTROL) then s.(hasControl := true, control := s.ec[MODE_CONTROL]) else s
  }

  /** The byte a read-modify-write starts from: the live one, else the shadow one, else a reconstruction. */
  function CurrentControl(s: State, hw: Hardware): (State, byte)
  {
    (Noted(s, hw),
     if Live(s, hw, MODE_CONTROL) then s.ec[MODE_CONTROL] else if s.hasControl then s.control
         else FallbackControl(s.shadow))
  }

  function TargetWithControl(t: Target, control: byte, mode: Mode): Target
  {
    t.(profile := ModeName(mode), hasBoost := true, boost := BoostBit(control))
  }

  /** Shadow bookkeeping after a successful write of the control byte. */
  function Committed(s: State, control: byte, mode: Mode): State
  {
    var meta := s.shadow.meta.(profile := Cached(), fanBoost := Cached());
    s.(hasControl := true, control := control,
       shadow := s.shadow.(requested := TargetWithControl(s.shadow.requested, control, mode),
                           effective := TargetWithControl(s.shadow.effective, control, mode),
                           meta := Finalized(meta)))
  }

  function ModeSteps(mode: Mode, target: byte): seq<Step>
  {
    [Step(MODE_INDEX, ModeIndex(mode), "set-mode-index", "amw0 mode index write failed"),
     Step(MODE_CONTROL, target, "set-mode-control", "amw0 mode control write failed")]
  }

  function ModeTarget(mode: Mode, current: byte): byte
  {
    WithBoost(ModeControl(mode), BoostBit(current))
  }

  function SetMode(s: State, hw: Hardware, mode: Mode): Reply<State>
  {
    var (s1, current) := CurrentControl(s, hw);
    var target := ModeTarget(mode, current);
    var r := RunSteps(s1, ModeSteps(mode, target), hw);
    var report := Report(s, ModeSteps(mode, target), r, s.shadow.effective.profile != ModeName(mode));
    Reply(if r.status == Ok then Committed(r.state, target, mode) else r.state, r.status, report)
  }

  function SetProfile(s: State, hw: Hardware, name: string, incoming: Result): Reply<State>
  {
    match AliasToMode(name)
    case None => Reply(s, NotSupported, incoming)
    case Some(mode) => SetMode(s, hw, mode)
  }

  function BoostSteps(target: byte): seq<Step>
  {
    [Step(MODE_CONTROL, target, "set-fan-boost", "amw0 fan boost write failed")]
  }

  function SetBoost(s: State, hw: Hardware, enabled: bool): Reply<State>
  {
    var (s1, current) := CurrentControl(s, hw);
    var target := WithBoost(current, enabled);
    var r := RunSteps(s1, BoostSteps(target), hw);
    var was := s.shadow.effective;
    var report := Report(s, BoostSteps(target), r, !was.hasBoost || was.boost != enabled || current != target);
    Reply(if r.status == Ok then Committed(r.state, target, DecodeMode(target)) else r.state, r.status, report)
  }

  // ----- power limits

  function FieldStage(f: PowerField): string
  {
    match f
    case Pl1 => "write-pl1"
    case Pl2 => "write-pl2"
    case Pl4 => "write-pl4"
    case Tcc => "write-tcc-offset"
  }

  function FieldDetail(f: PowerField): string
  {
    match f
    case Pl1 => "amw0 PL1 write failed"
    case Pl2 => "amw0 PL2 write failed"
    case Pl4 => "amw0 PL4 write failed"
    case Tcc => "amw0 TCC offset write failed"
  }

  function PowerStep(limits: PowerLimits, f: PowerField): seq<Step>
  {
    if limits.Get(f).present then [Step(PowerAddress(f), limits.Get(f).value, FieldStage(f), FieldDetail(f))] else []
  }

  function PowerSteps(limits: PowerLimits): (steps: seq<Step>)
    ensures limits.AnyPresent() <==> steps != []
  {
    PowerStep(limits, Pl1) + PowerStep(limits, Pl2) + PowerStep(limits, Pl4) + PowerStep(limits, Tcc)
  }

  function WithPower(s: State, merged: PowerLimits): State
  {
    var meta := PowerFromLimits(s.shadow.meta, Some(merged), Cached());
    s.(shadow := s.shadow.(requested := s.shadow.requested.(hasPower := true, power := merged),
                           effective := s.shadow.effective.(hasPower := true, power := merged),
                           meta := Finalized(meta)))
  }

  function SetPower(s: State, hw: Hardware, limits: PowerLimits, incoming: Result): Reply<State>
  {
    if !limits.AnyPresent() then Reply(s, InvalidArgument, incoming)
    else
      var was := s.shadow.effective;
      var merged := was.power.Overwrite(limits);
      var r := RunSteps(s, PowerSteps(limits), hw);
      Reply(if r.status == Ok then WithPower(r.state, merged) else r.state, r.status,
            Report(s, PowerSteps(limits), r, !was.hasPower || was.power != merged))
  }

  // ----- fan tables

  function WithFanTable(s: State, name: Text32): State
  {
    var meta := s.shadow.meta.(fanTable := Cached());
    s.(shadow := s.shadow.(requested := s.shadow.requested.(fanTable := name),
                           effective := s.shadow.effective.(fanTable := name),
                           meta := Finalized(meta)))
  }

  ghost function SetFanTable(s: State, hw: Hardware, name: string, incoming: Result): Reply<State>
  {
    if name == "" then Reply(s, InvalidArgument, incoming)
    else match hw.load(name)
      case Missing(error) => Reply(s, error, SetDetail(Ready(), "fan table fixture could not be loaded"))
      case Found(t) =>
        if ValidationStatus(t) != Ok then
          Reply(s, ValidationStatus(t), SetDetail(Ready(), "fan table could not be translated into an apply plan"))
        else
          PlanStepsExist(t);
          var steps := PlanSteps(FanProgram(t));
          var r := RunSteps(s.(writeCount := 0), steps, hw);
          Reply(if r.status == Ok then WithFanTable(r.state, t.name) else r.state, r.status,
                Report(s, steps, r, s.shadow.effective.fanTable != t.name))
  }

  lemma PlanStepsExist(t: FanTable)
    ensures var steps := PlanSteps(FanProgram(t));
      steps != [] && steps[|steps| - 1] == Step(TABLE_CONTROL, TailControl(t), Label(FanTail), FanFailed())
  {
    var program := FanProgram(t);
    var front := program[..|program| - 1];
    assert front == FanHead(t) + FanStatusTail(t);
    assert CurrentStage(front) == Label(FanTail) by {
      var f1 := front[..|front| - 1];
      var f2 := f1[..|f1| - 1];
      assert f2[|f2| - 1] == Stage(FanTail);
      assert f1[|f1| - 1].EcWrite? && front[|front| - 1].EcWrite?;
      assert CurrentStage(f2) == Label(FanTail);
      assert CurrentStage(f1) == CurrentStage(f2);
    }
  }

  // ----- reading

  function Readback(live: bool, cache: bool): Attribution
  {
    if live && cache then Mixed()
    else if live then Attribution("amw0", "live")
    else if cache then Cached()
    else Unattributed()
  }

  predicate Plausible(f: PowerField, raw: byte) { f == Tcc || raw > 0 }

  predicate FieldLive(s: State, hw: Hardware, f: PowerField)
  {
    Live(s, hw, PowerAddress(f)) && Plausible(f, s.ec[PowerAddress(f)])
  }

  function ReadField(s: State, hw: Hardware, f: PowerField, otherwise: OptByte): OptByte
  {
    if FieldLive(s, hw, f) then OptByte(true, s.ec[PowerAddress(f)]) else otherwise
  }

  function ReadPower(s: State, hw: Hardware, shadow: PowerLimits): PowerLimits
  {
    PowerLimits(ReadField(s, hw, Pl1, shadow.pl1), ReadField(s, hw, Pl2, shadow.pl2),
                ReadField(s, hw, Pl4, shadow.pl4), ReadField(s, hw, Tcc, shadow.tcc))
  }

  /** One target of the snapshot after the live bytes have been laid over the shadow. */
  function ReadTarget(s: State, hw: Hardware, t: Target): Target
  {
    var c := s.ec[MODE_CONTROL];
    var t1 := if Live(s, hw, MODE_CONTROL) then TargetWithControl(t, c, DecodeMode(c)) else t;
    t1.(power := ReadPower(s, hw, t.power))
  }

  predicate TempLive(s: State, hw: Hardware, addr: u16) { Live(s, hw, addr) && s.ec[addr] > 0 }

  function ReadThermal(s: State, hw: Hardware, t: Thermal): Thermal
  {
    var t1 := if TempLive(s, hw, CPUT) then t.(hasCpuTemp := true, cpuTemp := s.ec[CPUT]) else t;
    var t2 := if TempLive(s, hw, PCHT) then t1.(hasGpuTemp := true, gpuTemp := s.ec[PCHT]) else t1;
    if Live(s, hw, FFAN) then t2.(hasVendorLevel := true, vendorLevel := s.ec[FFAN] % 16) else t2
  }

  function FieldReadback(s: State, hw: Hardware, f: PowerField): Attribution
  {
    Readback(FieldLive(s, hw, f), !FieldLive(s, hw, f) && s.shadow.effective.power.Get(f).present)
  }

  predicate AnyThermalLive(s: State, hw: Hardware)
  {
    TempLive(s, hw, CPUT) || TempLive(s, hw, PCHT) || Live(s, hw, FFAN)
  }

  /** Some published thermal value was not read live. */
  predicate AnyThermalCached(s: State, hw: Hardware)
  {
    var t := s.shadow.thermal;
    || (t.hasCpuTemp && !TempLive(s, hw, CPUT)) || (t.hasGpuTemp && !TempLive(s, hw, PCHT))
    || t.hasCpuFan || t.hasGpuFan || (t.hasVendorLevel && !Live(s, hw, FFAN))
  }

  /** Component attributions of a read, before the summaries. */
  function RawMeta(s: State, hw: Hardware): Meta
  {
    var was := s.shadow.effective;
    var live := Live(s, hw, MODE_CONTROL);
    Meta("", "",
         Readback(live, !live && was.profile != ""),
         Readback(false, was.fanTable != ""),
         Readback(live, !live && was.hasBoost),
         Unattributed(),
         PowerAttribution(FieldReadback(s, hw, Pl1), FieldReadback(s, hw, Pl2),
                          FieldReadback(s, hw, Pl4), FieldReadback(s, hw, Tcc)),
         Readback(AnyThermalLive(s, hw), AnyThermalCached(s, hw)))
  }

  predicate AnyLive(s: State, hw: Hardware)
  {
    || Live(s, hw, MODE_CONTROL) || FieldLive(s, hw, Pl1) || FieldLive(s, hw, Pl2) || FieldLive(s, hw, Pl4)
    || FieldLive(s, hw, Tcc) || AnyThermalLive(s, hw)
  }

  /** The snapshot a read publishes. A dry run leaves `hasPower` as the shadow has it; a live read recomputes it. */
  function ReadSnapshot(s: State, hw: Hardware): Snapshot
  {
    var requested := ReadTarget(s, hw, s.shadow.requested);
    var effective := ReadTarget(s, hw, s.shadow.effective);
    var hasPower := requested.power.AnyPresent();
    Published(s.shadow,
              if s.dryRun then requested else requested.(hasPower := hasPower),
              if s.dryRun then effective else effective.(hasPower := hasPower),
              ReadThermal(s, hw, s.shadow.thermal), Finalized(RawMeta(s, hw)))
  }

  function Published(shadow: Snapshot, requested: Target, effective: Target, thermal: Thermal, meta: Meta): Snapshot
  {
    shadow.(backendName := "amw0", selected := "amw0", fallbackReason := "",
            requested := requested, effective := effective, thermal := thermal, meta := meta)
  }

  function NoLiveValues(): string { "amw0 state read returned no live values" }

  /** A live read becomes the new shadow; with no live value at all it is reported as NOT_FOUND. */
  function Read(s: State, hw: Hardware): ReadReply<State>
  {
    var snapshot := ReadSnapshot(s, hw);
    if s.dryRun then ReadReply(s, Ok, snapshot, Ready())
    else
      var status := if AnyLive(s, hw) then Ok else NotFound;
      ReadReply(Noted(s, hw).(shadow := snapshot), status, snapshot,
                if status == Ok then Ready() else SetDetail(Ready(), NoLiveValues()))
  }

  /** The backend as an operation table, in the environment of one call. */
  ghost function Table(hw: Hardware): Ops<State>
  {
    Ops("amw0",
        (s: State, old_: Snapshot, r: Result) => Read(s, hw),
        (s: State, op: Operation, r: Result) =>
          match op
          case ApplyProfile(name) => SetProfile(s, hw, name, r)
          case ApplyMode(mode) => SetMode(s, hw, mode)
          case ApplyPower(limits) => SetPower(s, hw, limits, r)
          case ApplyFanTable(name) => SetFanTable(s, hw, name, r)
          case ApplyFanBoost(enabled) => SetBoost(s, hw, enabled))
  }
}
