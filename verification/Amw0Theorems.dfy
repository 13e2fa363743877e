// What the AMW0 backend keeps over whole runs.
module Amw0Theorems {
  import opened Types
  import opened Plans
  import opened EcMemory
  import opened FanTables
  import opened PlanBuilders
  import opened Attributions
  import opened Backends
  import opened Amw0
  import opened Amw0Ops

  // ----- attribution

  /** The shadow never drifts apart, never loses a name, and always explains itself. */
  predicate ShadowOk(s: State)
  {
    && s.shadow.requested == s.shadow.effective
    && s.shadow.effective.profile != "" && s.shadow.effective.fanTable != ""
    && Sound(s.shadow)
  }

  /** What "live" promises about an AMW0 snapshot: the published value is the EC byte. */
  predicate TrueToEc(snapshot: Snapshot, ec: Memory)
  {
    var t, m := snapshot.effective, snapshot.meta;
    && LiveFrom(m.profile, "amw0", t.profile == ModeName(DecodeMode(ec[MODE_CONTROL])))
    && LiveFrom(m.fanBoost, "amw0", t.boost == BoostBit(ec[MODE_CONTROL]))
    && LiveFrom(m.fields.pl1, "amw0", t.power.pl1 == OptByte(true, ec[PL1]))
    && LiveFrom(m.fields.pl2, "amw0", t.power.pl2 == OptByte(true, ec[PL2]))
    && LiveFrom(m.fields.pl4, "amw0", t.power.pl4 == OptByte(true, ec[PL4]))
    && LiveFrom(m.fields.tcc, "amw0", t.power.tcc == OptByte(true, ec[TCC_OFFSET]))
    && m.fanTable.freshness != "live"
    && LiveFrom(m.thermal, "amw0", ThermalTrue(snapshot.thermal, ec))
  }

  predicate ThermalTrue(t: Thermal, ec: Memory)
  {
    && (t.hasCpuTemp ==> t.cpuTemp == ec[CPUT]) && (t.hasGpuTemp ==> t.gpuTemp == ec[PCHT])
    && (t.hasVendorLevel ==> t.vendorLevel == ec[FFAN] % 16)
    && !t.hasCpuFan && !t.hasGpuFan
  }

  predicate LiveIff(a: Attribution, read: bool)
  {
    (a.freshness == "live" <==> read) && (read ==> a.source == "amw0")
  }

  /** Live marks are given exactly to what was read. */
  predicate MarksWhatWasRead(m: Meta, s: State, hw: Hardware)
  {
    && LiveIff(m.profile, Live(s, hw, MODE_CONTROL))
    && LiveIff(m.fanBoost, Live(s, hw, MODE_CONTROL))
    && LiveIff(m.fields.pl1, FieldLive(s, hw, Pl1))
    && LiveIff(m.fields.pl2, FieldLive(s, hw, Pl2))
    && LiveIff(m.fields.pl4, FieldLive(s, hw, Pl4))
    && LiveIff(m.fields.tcc, FieldLive(s, hw, Tcc))
    && m.fanTable.freshness != "live"
    && LiveIff(m.thermal, AnyThermalLive(s, hw) && !AnyThermalCached(s, hw))
  }

  /** Every read, successful or not, publishes a sound snapshot whose live marks are true. */
  lemma ReadIsSound(s: State, hw: Hardware)
    requires ShadowOk(s)
    ensures Sound(Read(s, hw).snapshot) && TrueToEc(Read(s, hw).snapshot, s.ec)
    ensures MarksWhatWasRead(Read(s, hw).snapshot.meta, s, hw)
    ensures ShadowOk(Read(s, hw).next) && Read(s, hw).next.ec == s.ec
  {
    ReadTargetsAgree(s, hw);
    RawMetaExplains(s, hw);
    RawMetaMarks(s, hw);
    FinalizeIdempotent(RawMeta(s, hw));
    MarksAreTrue(s, hw);
  }

  lemma MarksAreTrue(s: State, hw: Hardware)
    ensures TrueToEc(ReadSnapshot(s, hw), s.ec)
  {
    RawMetaMarks(s, hw);
    var m := ReadSnapshot(s, hw).meta;
    assert MarksWhatWasRead(m, s, hw);
    if m.thermal.freshness == "live" {
      assert ThermalTrue(ReadThermal(s, hw, s.shadow.thermal), s.ec);
    }
  }

  lemma ReadTargetsAgree(s: State, hw: Hardware)
    requires ShadowOk(s)
    ensures var r := ReadSnapshot(s, hw);
      && r.requested == r.effective && PowerCoherent(r.effective)
      && r.effective.profile != "" && r.effective.fanTable == s.shadow.effective.fanTable
      && (r.effective.hasBoost <==> Live(s, hw, MODE_CONTROL) || s.shadow.effective.hasBoost)
  {
    ModeNamesDistinct();
  }

  lemma ReadbackExplains(live: bool, cache: bool)
    ensures Explains(Readback(live, cache), live || cache)
    ensures Readback(live, cache).freshness == "live" <==> live && !cache
    ensures live && !cache ==> Readback(live, cache).source == "amw0"
  {
    assert "live"[0] != "cache"[0] && "live"[0] != "mixed"[0];
  }

  lemma RawMetaExplains(s: State, hw: Hardware)
    ensures var m := RawMeta(s, hw); var was := s.shadow.effective;
      && Explains(m.profile, Live(s, hw, MODE_CONTROL) || was.profile != "")
      && Explains(m.fanTable, was.fanTable != "")
      && Explains(m.fanBoost, Live(s, hw, MODE_CONTROL) || was.hasBoost)
      && Explains(m.thermal, ReadThermal(s, hw, s.shadow.thermal).AnyPresent())
      && FieldsExplain(m.fields, ReadPower(s, hw, was.power))
  {
    var was := s.shadow.effective;
    var live := Live(s, hw, MODE_CONTROL);
    ReadbackExplains(live, !live && was.profile != "");
    ReadbackExplains(live, !live && was.hasBoost);
    ReadbackExplains(false, was.fanTable != "");
    ReadbackExplains(AnyThermalLive(s, hw), AnyThermalCached(s, hw));
    FieldReadbackExplains(s, hw, Pl1);
    FieldReadbackExplains(s, hw, Pl2);
    FieldReadbackExplains(s, hw, Pl4);
    FieldReadbackExplains(s, hw, Tcc);
  }

  lemma FieldReadbackExplains(s: State, hw: Hardware, f: PowerField)
    ensures Explains(FieldReadback(s, hw, f), ReadField(s, hw, f, s.shadow.effective.power.Get(f)).present)
    ensures FieldReadback(s, hw, f).freshness == "live" <==> FieldLive(s, hw, f)
    ensures FieldLive(s, hw, f) ==> FieldReadback(s, hw, f).source == "amw0"
  {
    ReadbackExplains(FieldLive(s, hw, f), !FieldLive(s, hw, f) && s.shadow.effective.power.Get(f).present);
  }

  lemma RawMetaMarks(s: State, hw: Hardware)
    ensures MarksWhatWasRead(RawMeta(s, hw), s, hw)
  {
    var was := s.shadow.effective;
    var live := Live(s, hw, MODE_CONTROL);
    ReadbackExplains(live, !live && was.profile != "");
    ReadbackExplains(live, !live && was.hasBoost);
    ReadbackExplains(false, was.fanTable != "");
    ReadbackExplains(AnyThermalLive(s, hw), AnyThermalCached(s, hw));
    FieldReadbackExplains(s, hw, Pl1);
    FieldReadbackExplains(s, hw, Pl2);
    FieldReadbackExplains(s, hw, Pl4);
    FieldReadbackExplains(s, hw, Tcc);
  }

  lemma ModeNamesDistinct()
    ensures forall a: Mode, b: Mode :: ModeName(a) == ModeName(b) ==> a == b
    ensures forall a: Mode :: ModeName(a) != "" && AliasToMode(ModeName(a)) == Some(a)
  {
    assert |"gaming"| == 6 && |"office"| == 6 && |"turbo"| == 5 && |"custom"| == 6;
    assert "gaming"[0] == 'g' && "office"[0] == 'o' && "custom"[0] == 'c' && "turbo"[0] == 't';
  }

  // ----- every operation keeps the shadow in order, whatever the hardware does

  lemma SoundWithMeta(s: Snapshot, meta: Meta)
    requires s.meta == Finalized(meta)
    requires Explains(meta.profile, s.effective.profile != "")
    requires Explains(meta.fanTable, s.effective.fanTable != "")
    requires Explains(meta.fanBoost, s.effective.hasBoost)
    requires Explains(meta.thermal, s.thermal.AnyPresent())
    requires FieldsExplain(meta.fields, s.effective.power)
    requires PowerCoherent(s.effective)
    ensures Sound(s)
  {
    FinalizeIdempotent(meta);
  }

  lemma CommittedKeeps(s: State, control: byte, mode: Mode)
    requires ShadowOk(s)
    ensures ShadowOk(Committed(s, control, mode))
  {
    ModeNamesDistinct();
    SoundWithMeta(Committed(s, control, mode).shadow, s.shadow.meta.(profile := Cached(), fanBoost := Cached()));
  }

  lemma WithPowerKeeps(s: State, merged: PowerLimits)
    requires ShadowOk(s) && merged.AnyPresent()
    ensures ShadowOk(WithPower(s, merged))
  {
    SoundWithMeta(WithPower(s, merged).shadow, PowerFromLimits(s.shadow.meta, Some(merged), Cached()));
  }

  lemma WithFanTableKeeps(s: State, name: Text32)
    requires ShadowOk(s) && name != ""
    ensures ShadowOk(WithFanTable(s, name))
  {
    SoundWithMeta(WithFanTable(s, name).shadow, s.shadow.meta.(fanTable := Cached()));
  }

  predicate KeepsShadow(s: State, reply: Reply<State>)
  {
    && (ShadowOk(s) ==> ShadowOk(reply.next))
    && (reply.status != Ok ==> reply.next.shadow == s.shadow)
    && reply.next.dryRun == s.dryRun && reply.next.failAfter == s.failAfter
  }

  lemma SetModeKeeps(s: State, hw: Hardware, mode: Mode)
    ensures KeepsShadow(s, SetMode(s, hw, mode))
  {
    var (s1, current) := CurrentControl(s, hw);
    var target := ModeTarget(mode, current);
    var r := RunSteps(s1, ModeSteps(mode, target), hw);
    RunStepsConsistent(s1, ModeSteps(mode, target), hw);
    if ShadowOk(s) {
      CommittedKeeps(r.state, target, mode);
    }
  }

  lemma SetBoostKeeps(s: State, hw: Hardware, enabled: bool)
    ensures KeepsShadow(s, SetBoost(s, hw, enabled))
  {
    var (s1, current) := CurrentControl(s, hw);
    var target := WithBoost(current, enabled);
    var r := RunSteps(s1, BoostSteps(target), hw);
    RunStepsConsistent(s1, BoostSteps(target), hw);
    if ShadowOk(s) {
      CommittedKeeps(r.state, target, DecodeMode(target));
    }
  }

  lemma SetPowerKeeps(s: State, hw: Hardware, limits: PowerLimits, incoming: Result)
    ensures KeepsShadow(s, SetPower(s, hw, limits, incoming))
  {
    if limits.AnyPresent() {
      var r := RunSteps(s, PowerSteps(limits), hw);
      RunStepsConsistent(s, PowerSteps(limits), hw);
      if ShadowOk(s) {
        WithPowerKeeps(r.state, s.shadow.effective.power.Overwrite(limits));
      }
    }
  }

  lemma SetFanTableKeeps(s: State, hw: Hardware, name: string, incoming: Result)
    ensures KeepsShadow(s, SetFanTable(s, hw, name, incoming))
  {
    if name != "" && hw.load(name).Found? && ValidationStatus(hw.load(name).table) == Ok {
      var t := hw.load(name).table;
      PlanStepsExist(t);
      var r := RunSteps(s.(writeCount := 0), PlanSteps(FanProgram(t)), hw);
      RunStepsConsistent(s.(writeCount := 0), PlanSteps(FanProgram(t)), hw);
      if ShadowOk(s) {
        WithFanTableKeeps(r.state, t.name);
      }
    }
  }

  /** A failed operation leaves the whole shadow snapshot as it was; any operation keeps it sound. */
  lemma OperationKeepsShadow(s: State, hw: Hardware, op: Operation, incoming: Result)
    ensures KeepsShadow(s, Table(hw).apply(s, op, incoming))
  {
    match op
    case ApplyProfile(name) =>
      if AliasToMode(name).Some? {
        SetModeKeeps(s, hw, AliasToMode(name).value);
      }
    case ApplyMode(mode) => SetModeKeeps(s, hw, mode);
    case ApplyPower(limits) => SetPowerKeeps(s, hw, limits, incoming);
    case ApplyFanTable(name) => SetFanTableKeeps(s, hw, name, incoming);
    case ApplyFanBoost(enabled) => SetBoostKeeps(s, hw, enabled);
  }
}
