// Laying an AMW0 snapshot over the snapshot of another backend
// (overlay_power_field and overlay_amw0_state of src/backends/converged/backend.c).
module Overlays {
  import opened Types
  import opened Attributions

  /** `lcc_backend_copy_text` refuses empty text and then leaves the target alone. */
  function CopyText(target: Text64, value: Text64): Text64
  {
    if value == "" then target else value
  }

  datatype Field = Field(requested: OptByte, effective: OptByte, mark: Attribution)

  function OverlayField(target: Field, source: Field, replace: bool): Field
  {
    var requested := if source.requested.present && (replace || !target.requested.present) then source.requested
                     else target.requested;
    if !source.effective.present || (!replace && target.effective.present) then target.(requested := requested)
    else Field(requested, source.effective, if source.mark.Given() then source.mark else target.mark)
  }

  function GetField(s: Snapshot, f: PowerField): Field
  {
    Field(s.requested.power.Get(f), s.effective.power.Get(f), s.meta.fields.Get(f))
  }

  function OverlayPower(s: Snapshot, a: Snapshot, replace: bool): Snapshot
  {
    if !a.effective.hasPower then s
    else
      var f1, f2 := OverlayField(GetField(s, Pl1), GetField(a, Pl1),
                                 replace), OverlayField(GetField(s, Pl2), GetField(a, Pl2), replace);
      var f4, ft := OverlayField(GetField(s, Pl4), GetField(a, Pl4),
                                 replace), OverlayField(GetField(s, Tcc), GetField(a, Tcc), replace);
      var requested := PowerLimits(f1.requested, f2.requested, f4.requested, ft.requested);
      var effective := PowerLimits(f1.effective, f2.effective, f4.effective, ft.effective);
      s.(requested := s.requested.(power := requested, hasPower := requested.AnyPresent()),
         effective := s.effective.(power := effective, hasPower := effective.AnyPresent()),
         meta := s.meta.(fields := PowerAttribution(f1.mark, f2.mark, f4.mark, ft.mark)))
  }

  /** What the overlay takes from the route table. */
  datatype Routes = Routes(names: bool, fanTable: bool, power: bool)

  function RoutesOf(e: Execution): Routes
  {
    Routes(e.applyProfile == "amw0" || e.applyMode == "amw0" || e.applyFanTable == "amw0",
           e.applyFanTable == "amw0", e.applyPower == "amw0")
  }

  function OverlayNames(s: Snapshot, a: Snapshot, r: Routes): Snapshot
  {
    var s1 :=
      if r.names then
        s.(requested := s.requested.(profile := CopyText(s.requested.profile, a.requested.profile)),
           effective := s.effective.(profile := CopyText(s.effective.profile, a.effective.profile)),
           meta := s.meta.(profile := a.meta.profile))
      else s;
    if r.fanTable then
      s1.(requested := s1.requested.(fanTable := CopyText(s1.requested.fanTable, a.requested.fanTable)),
          effective := s1.effective.(fanTable := CopyText(s1.effective.fanTable, a.effective.fanTable)),
          meta := s1.meta.(fanTable := a.meta.fanTable))
    else s1
  }

  function OverlayBoost(s: Snapshot, a: Snapshot): Snapshot
  {
    if !a.effective.hasBoost then s
    else s.(requested := s.requested.(hasBoost := a.requested.hasBoost, boost := a.requested.boost),
            effective := s.effective.(hasBoost := true, boost := a.effective.boost),
            meta := s.meta.(fanBoost := a.meta.fanBoost))
  }

  function FillThermal(t: Thermal, a: Thermal): Thermal
  {
    var t1 := if !t.hasCpuTemp && a.hasCpuTemp then t.(hasCpuTemp := true, cpuTemp := a.cpuTemp) else t;
    var t2 := if !t1.hasGpuTemp && a.hasGpuTemp then t1.(hasGpuTemp := true, gpuTemp := a.gpuTemp) else t1;
    var t3 := if !t2.hasCpuFan && a.hasCpuFan then t2.(hasCpuFan := true, cpuFan := a.cpuFan) else t2;
    var t4 := if !t3.hasGpuFan && a.hasGpuFan then t3.(hasGpuFan := true, gpuFan := a.gpuFan) else t3;
    if !t4.hasVendorLevel && a.hasVendorLevel then t4.(hasVendorLevel := true, vendorLevel := a.vendorLevel) else t4
  }

  function OverlayThermal(s: Snapshot, a: Snapshot): Snapshot
  {
    s.(thermal := FillThermal(s.thermal, a.thermal),
       meta := if a.meta.thermal.Given() then s.meta.(thermal := MergeComponent(s.meta.thermal, a.meta.thermal))
           else s.meta)
  }

  function Laid(s: Snapshot, a: Snapshot, r: Routes): Snapshot
  {
    OverlayThermal(OverlayPower(OverlayBoost(OverlayNames(s, a, r), a), a, r.power), a)
  }

  /** `overlay_amw0_state` */
  function Overlay(s: Snapshot, a: Snapshot, r: Routes): Snapshot
  {
    var laid := Laid(s, a, r);
    laid.(meta := Finalized(laid.meta))
  }

  // ----- what the overlay keeps

  predicate WellFormed(a: Snapshot)
  {
    Explained(a) && a.effective.profile != "" && a.effective.fanTable != ""
  }

  lemma FieldStaysExplained(target: Field, source: Field, replace: bool)
    requires Explains(target.mark, target.effective.present) && Explains(source.mark, source.effective.present)
    ensures var f := OverlayField(target, source, replace);
      Explains(f.mark, f.effective.present)
  {
  }

  lemma NamesExplained(s: Snapshot, a: Snapshot, r: Routes)
    requires Explained(s) && WellFormed(a)
    ensures Explained(OverlayNames(s, a, r))
  {
  }

  lemma BoostExplained(s: Snapshot, a: Snapshot)
    requires Explained(s) && Explained(a)
    ensures Explained(OverlayBoost(s, a))
  {
  }

  lemma PowerExplained(s: Snapshot, a: Snapshot, replace: bool)
    requires Explained(s) && Explained(a)
    ensures Explained(OverlayPower(s, a, replace))
  {
    FieldStaysExplained(GetField(s, Pl1), GetField(a, Pl1), replace);
    FieldStaysExplained(GetField(s, Pl2), GetField(a, Pl2), replace);
    FieldStaysExplained(GetField(s, Pl4), GetField(a, Pl4), replace);
    FieldStaysExplained(GetField(s, Tcc), GetField(a, Tcc), replace);
  }

  lemma ThermalExplained(s: Snapshot, a: Snapshot)
    requires Explained(s) && Explained(a)
    ensures Explained(OverlayThermal(s, a))
  {
  }

  /** Overlaying a sound snapshot on a sound one is sound. */
  lemma OverlayIsSound(s: Snapshot, a: Snapshot, r: Routes)
    requires Explained(s) && WellFormed(a)
    ensures Sound(Overlay(s, a, r))
  {
    var s1 := OverlayNames(s, a, r);
    NamesExplained(s, a, r);
    var s2 := OverlayBoost(s1, a);
    BoostExplained(s1, a);
    var s3 := OverlayPower(s2, a, r.power);
    PowerExplained(s2, a, r.power);
    ThermalExplained(s3, a);
    SoundOnceFinalized(Laid(s, a, r));
  }

  /** Which of two optional values shows through. */
  function Through(replace: bool, under: OptByte, over: OptByte): OptByte
  {
    if over.present && (replace || !under.present) then over else under
  }

  function ThroughLimits(replace: bool, under: PowerLimits, over: PowerLimits): PowerLimits
  {
    PowerLimits(Through(replace, under.pl1, over.pl1), Through(replace, under.pl2, over.pl2),
                Through(replace, under.pl4, over.pl4), Through(replace, under.tcc, over.tcc))
  }

  lemma PowerThrough(s: Snapshot, a: Snapshot, replace: bool)
    requires PowerCoherent(a.effective)
    ensures OverlayPower(s, a, replace).effective.power == ThroughLimits(replace, s.effective.power, a.effective.power)
  {
  }

  /** The effective limits of an overlay, field by field. */
  lemma OverlayLimits(s: Snapshot, a: Snapshot, r: Routes)
    requires PowerCoherent(a.effective)
    ensures Overlay(s, a, r).effective.power == ThroughLimits(r.power, s.effective.power, a.effective.power)
  {
    PowerThrough(OverlayBoost(OverlayNames(s, a, r), a), a, r.power);
  }

  /** Overlaying a sound snapshot on itself is the identity, so reading the fallback twice changes nothing. */
  lemma OverlaySelf(a: Snapshot, r: Routes)
    requires Sound(a) && PowerCoherent(a.requested)
    ensures Overlay(a, a, r) == a
  {
    var a1 := OverlayNames(a, a, r);
    assert a1 == a;
    assert OverlayBoost(a, a) == a;
    var f1, f2 := OverlayField(GetField(a, Pl1), GetField(a, Pl1),
                               r.power), OverlayField(GetField(a, Pl2), GetField(a, Pl2), r.power);
    assert f1 == GetField(a, Pl1) && f2 == GetField(a, Pl2);
    assert OverlayPower(a, a, r.power) == a;
    assert OverlayThermal(a, a) == a;
  }

  // ----- the same in place, assignment by assignment

  /** `overlay_power_field`: three cells of the state, updated one after the other. */
  method LayPowerField(requested: OptByte, effective: OptByte, mark: Attribution, from: Field, replace: bool)
    returns (r: OptByte, e: OptByte, m: Attribution)
    ensures Field(r, e, m) == OverlayField(Field(requested, effective, mark), from, replace)
  {
    r, e, m := requested, effective, mark;
    if from.requested.present && (replace || !r.present) {
      r := from.requested;
    }
    if !from.effective.present {
      return;
    }
    if !replace && e.present {
      return;
    }
    e := from.effective;
    if from.mark.source == "" && from.mark.freshness == "" {
      return;
    }
    m := from.mark;
  }

  /** The four power fields, then whether any is left present. */
  method LayPower(state: Snapshot, a: Snapshot, replace: bool) returns (s: Snapshot)
    ensures s == OverlayPower(state, a, replace)
  {
    s := state;
    if !a.effective.hasPower {
      return;
    }
    var requested, effective, fields := s.requested.power, s.effective.power, s.meta.fields;
    var r, e, m := LayPowerField(requested.pl1, effective.pl1, fields.pl1, GetField(a, Pl1), replace);
    requested, effective, fields := requested.(pl1 := r), effective.(pl1 := e), fields.(pl1 := m);
    r, e, m := LayPowerField(requested.pl2, effective.pl2, fields.pl2, GetField(a, Pl2), replace);
    requested, effective, fields := requested.(pl2 := r), effective.(pl2 := e), fields.(pl2 := m);
    r, e, m := LayPowerField(requested.pl4, effective.pl4, fields.pl4, GetField(a, Pl4), replace);
    requested, effective, fields := requested.(pl4 := r), effective.(pl4 := e), fields.(pl4 := m);
    r, e, m := LayPowerField(requested.tcc, effective.tcc, fields.tcc, GetField(a, Tcc), replace);
    requested, effective, fields := requested.(tcc := r), effective.(tcc := e), fields.(tcc := m);
    s := s.(requested := s.requested.(power := requested), effective := s.effective.(power := effective));
    s := s.(meta := s.meta.(fields := fields));
    s := s.(requested := s.requested.(hasPower := s.requested.power.AnyPresent()));
    s := s.(effective := s.effective.(hasPower := s.effective.power.AnyPresent()));
  }

  /** The profile and the fan table, each under its own test of the route table. */
  method LayNames(state: Snapshot, a: Snapshot, e: Execution) returns (s: Snapshot)
    ensures s == OverlayNames(state, a, RoutesOf(e))
  {
    var requested, effective, meta := state.requested, state.effective, state.meta;
    if e.applyProfile == "amw0" || e.applyMode == "amw0" || e.applyFanTable == "amw0" {
      requested := requested.(profile := CopyText(requested.profile, a.requested.profile));
      effective := effective.(profile := CopyText(effective.profile, a.effective.profile));
      meta := meta.(profile := a.meta.profile);
    }
    if e.applyFanTable == "amw0" {
      requested := requested.(fanTable := CopyText(requested.fanTable, a.requested.fanTable));
      effective := effective.(fanTable := CopyText(effective.fanTable, a.effective.fanTable));
      meta := meta.(fanTable := a.meta.fanTable);
    }
    s := state.(requested := requested, effective := effective, meta := meta);
  }

  method LayBoost(state: Snapshot, a: Snapshot) returns (s: Snapshot)
    ensures s == OverlayBoost(state, a)
  {
    s := state;
    if a.effective.hasBoost {
      s := s.(requested := s.requested.(hasBoost := a.requested.hasBoost, boost := a.requested.boost));
      s := s.(effective := s.effective.(hasBoost := a.effective.hasBoost, boost := a.effective.boost));
      s := s.(meta := s.meta.(fanBoost := a.meta.fanBoost));
    }
  }

  /** Every thermal value that is still free. */
  method LayReadings(was: Thermal, a: Thermal) returns (t: Thermal)
    ensures t == FillThermal(was, a)
  {
    t := was;
    if !t.hasCpuTemp && a.hasCpuTemp {
      t := t.(hasCpuTemp := true, cpuTemp := a.cpuTemp);
    }
    if !t.hasGpuTemp && a.hasGpuTemp {
      t := t.(hasGpuTemp := true, gpuTemp := a.gpuTemp);
    }
    if !t.hasCpuFan && a.hasCpuFan {
      t := t.(hasCpuFan := true, cpuFan := a.cpuFan);
    }
    if !t.hasGpuFan && a.hasGpuFan {
      t := t.(hasGpuFan := true, gpuFan := a.gpuFan);
    }
    if !t.hasVendorLevel && a.hasVendorLevel {
      t := t.(hasVendorLevel := true, vendorLevel := a.vendorLevel);
    }
  }

  /** The thermal values, then their common mark. */
  method LayThermal(state: Snapshot, a: Snapshot) returns (s: Snapshot)
    ensures s == OverlayThermal(state, a)
  {
    var thermal := LayReadings(state.thermal, a.thermal);
    s := state.(thermal := thermal);
    if a.meta.thermal.source != "" || a.meta.thermal.freshness != "" {
      var m := s.meta.thermal;
      m := m.(source := MergeText(m.source, a.meta.thermal.source));
      m := m.(freshness := MergeText(m.freshness, a.meta.thermal.freshness));
      s := s.(meta := s.meta.(thermal := m));
    }
  }

  /** `overlay_amw0_state`: the assignments end in the overlay, whose limits show through as the route table says, which
      is sound over an explained state, and which leaves a sound state laid over itself as it was. */
  method OverlayInPlace(state: Snapshot, a: Snapshot, e: Execution) returns (s: Snapshot)
    ensures s == Overlay(state, a, RoutesOf(e))
    ensures Explained(state) && WellFormed(a) ==> Sound(s)
    ensures PowerCoherent(a.effective) ==>
      s.effective.power == ThroughLimits(e.applyPower == "amw0", state.effective.power, a.effective.power)
    ensures state == a && Sound(a) && PowerCoherent(a.requested) ==> s == state
  {
    s := LayNames(state, a, e);
    s := LayBoost(s, a);
    s := LayPower(s, a, e.applyPower == "amw0");
    s := LayThermal(s, a);
    var meta := Finalize(s.meta);
    s := s.(meta := meta);
    if Explained(state) && WellFormed(a) {
      OverlayIsSound(state, a, RoutesOf(e));
    }
    if PowerCoherent(a.effective) {
      OverlayLimits(state, a, RoutesOf(e));
    }
    if state == a && Sound(a) && PowerCoherent(a.requested) {
      OverlaySelf(a, RoutesOf(e));
    }
  }
}
