// The standard backend as an object: the read fills one snapshot source by source, and writes go to sysfs in place
// (src/backends/standard/backend.c).
module StandardClass {
  import opened Types
  import opened Attributions
  import opened Backends
  import opened Powercap
  import opened Hwmon
  import opened Standard

  /** `lcc_standard_thermal_read`: one zone after another into the first free slot. */
  method FillFromZones(zones: ThermalZones, was: Thermal) returns (status: Status, t: Thermal)
    ensures (status, t) == ReadThermalZones(zones, was)
  {
    if zones.Shut? {
      return zones.error, was;
    }
    t := was;
    var temps := zones.millidegrees;
    var i := 0;
    while i < |temps|
      invariant 0 <= i <= |temps|
      invariant FillTemps(t, temps[i..]) == FillTemps(was, temps)
    {
      assert temps[i..][1..] == temps[i + 1..];
      if !t.hasCpuTemp {
        t := t.(hasCpuTemp := true, cpuTemp := temps[i] / 1000 % 0x100);
      } else if !t.hasGpuTemp {
        t := t.(hasGpuTemp := true, gpuTemp := temps[i] / 1000 % 0x100);
      }
      i := i + 1;
    }
    status := if temps == [] then NotFound else Ok;
  }

  /** `lcc_standard_hwmon_read` */
  method FillFromHwmon(listing: Listing, was: Thermal) returns (status: Status, t: Thermal)
    ensures (status, t) == ReadHwmon(listing, was)
  {
    if listing.Closed? {
      return listing.error, was;
    }
    var c := Scan(listing.nodes);
    t := was;
    if c.cpuTemp.present {
      t := t.(hasCpuTemp := true, cpuTemp := c.cpuTemp.value / 1000 % 0x100);
    }
    if c.gpuTemp.present {
      t := t.(hasGpuTemp := true, gpuTemp := c.gpuTemp.value / 1000 % 0x100);
    }
    if c.cpuFan.present {
      t := t.(hasCpuFan := true, cpuFan := c.cpuFan.value % 0x1_0000);
    }
    if c.gpuFan.present {
      t := t.(hasGpuFan := true, gpuFan := c.gpuFan.value % 0x1_0000);
    }
    status := if c.cpuTemp.present || c.gpuTemp.present || c.cpuFan.present || c.gpuFan.present then Ok else NotFound;
  }

  class StandardBackend {
    var profile: Text64
    const tree: PowercapTree
    ghost var sensors: Sensors

    ghost function Value(): Sys
      reads this, tree
    {
      Sys(profile, tree.directory, sensors)
    }

    constructor (profile: Text64, tree: PowercapTree, ghost sensors: Sensors)
      ensures this.tree == tree && Value() == Sys(profile, tree.directory, sensors)
    {
      this.profile, this.tree, this.sensors := profile, tree, sensors;
    }

    /** `lcc_standard_powercap_read` */
    method ReadPowercap() returns (status: Status, limits: PowerLimits)
      ensures status == PowercapStatus(tree.directory)
      ensures status == Ok ==> limits == Shown(tree.directory)
    {
      limits := NO_LIMITS;
      var zone;
      status, zone := SelectZone(tree.directory);
      SelectionIs(tree.directory, status, zone);
      if status != Ok {
        return;
      }
      limits := ReadZone(tree.directory.zones[zone].constraints);
      status := if limits.pl1.present || limits.pl2.present then Ok else NotFound;
    }

    /** The thermal half of the read. */
    method ReadSensors(env: Env, s1: Snapshot) returns (status: Status, s: Snapshot, result: Result, any: bool)
      ensures var h := ReadHwmon(env.sensors.hwmon, s1.thermal); var s2 := AfterThermal(h, s1);
        var z := ReadThermalZones(env.sensors.zones, s2.thermal);
        if Ends(h.0) then status == h.0 && s == s2 && result == At("read-hwmon")
        else
          && status == z.0 && s == AfterThermal(z, s2) && result == At("read-thermal")
          && any == (h.0 == Ok || z.0 == Ok)
    {
      s := s1;
      result := At("read-hwmon");
      any := false;
      var thermal;
      status, thermal := FillFromHwmon(env.sensors.hwmon, s.thermal);
      s := s.(thermal := thermal);
      if status == Ok {
        any := true;
        s := s.(meta := s.meta.(thermal := MergeComponent(s.meta.thermal, LiveStandard())));
      } else if status != NotFound && status != NotSupported {
        return;
      }
      result := At("read-thermal");
      status, thermal := FillFromZones(env.sensors.zones, s.thermal);
      s := s.(thermal := thermal);
      if status == Ok {
        any := true;
        s := s.(meta := s.meta.(thermal := MergeComponent(s.meta.thermal, LiveStandard())));
      }
    }

    /** The powercap step and the end of the read. */
    method FinishRead(s3: Snapshot, anyBefore: bool) returns (status: Status, s: Snapshot, result: Result)
      ensures var p := PowercapStatus(tree.directory); var s4 := AfterPowercap(tree.directory, s3);
        if Ends(p) then status == p && s == s4 && result == At("read-powercap")
        else if !anyBefore && p != Ok then
          status == NotFound && s == s4 &&
              result == SetDetail(At("read-powercap"), "no standard Linux ABI state source returned data")
        else status == Ok && s == s4.(meta := Finalized(s4.meta)) && result == At("read-powercap")
    {
      s := s3;
      result := At("read-powercap");
      var any := anyBefore;
      var limits;
      status, limits := ReadPowercap();
      if status == Ok {
        any := true;
        s := s.(requested := s.requested.(hasPower := true, power := limits),
                effective := s.effective.(hasPower := true, power := limits));
        s := s.(meta := PowerFromLimits(s.meta, Some(s.effective.power), LiveStandard()));
      } else if status != NotFound && status != NotSupported {
        return;
      }
      if !any {
        return NotFound, s, SetDetail(result, "no standard Linux ABI state source returned data");
      }
      var meta := Finalize(s.meta);
      s := s.(meta := meta);
      status := Ok;
    }

    /** `standard_read_state` */
    method ReadState(env: Env) returns (status: Status, s: Snapshot, result: Result)
      modifies `sensors
      ensures ReadReply(Value(), status, s, result) == Read(old(Value()), env)
    {
      sensors := env.sensors;
      s := Begun();
      result := At("read-platform-profile");
      var any := false;
      if env.profileRead == Ok {
        any := true;
        s := s.(requested := s.requested.(profile := AliasFromProfile(profile)),
                effective := s.effective.(profile := AliasFromProfile(profile)));
        s := s.(meta := s.meta.(profile := LiveStandard()));
      } else if env.profileRead != NotFound && env.profileRead != NotSupported {
        return env.profileRead, s, result;
      }
      var sensed;
      status, s, result, sensed := ReadSensors(env, s);
      if Ends(status) {
        return;
      }
      status, s, result := FinishRead(s, any || sensed);
    }

    method StoreProfile(env: Env, text: Text64) returns (status: Status, result: Result)
      modifies `profile
      ensures Reply(Value(), status, result) == WriteProfile(old(Value()), env, text)
    {
      result := At("write-platform-profile");
      if env.profileWrite.Denied? {
        return env.profileWrite.error, SetDetail(result, "platform_profile write failed");
      }
      profile := text;
      if env.profileWrite.SavedUnconfirmed? {
        return IoError, SetDetail(result, "platform_profile write failed");
      }
      return Ok, result.(changed := true, hardwareWrite := true);
    }

    method ApplyProfileName(env: Env, name: string) returns (status: Status, result: Result)
      modifies `profile
      ensures Reply(Value(), status, result) == Table(env).apply(old(Value()), ApplyProfile(name), ResetResult())
    {
      var text := ProfileFromAlias(name);
      if text.None? {
        return NotSupported, SetDetail(At("write-platform-profile"), "platform_profile alias unsupported");
      }
      status, result := StoreProfile(env, text.value);
    }

    method ApplyModeChoice(env: Env, mode: Mode) returns (status: Status, result: Result)
      modifies `profile
      ensures Reply(Value(), status, result) == Table(env).apply(old(Value()), ApplyMode(mode), ResetResult())
    {
      status, result := StoreProfile(env, ProfileFromMode(mode));
    }

    /** `standard_apply_power_limits` */
    method ApplyPowerLimits(env: Env, limits: PowerLimits) returns (status: Status, result: Result)
      modifies tree
      ensures Reply(Value(), status, result) == SetPower(old(Value()), env, limits)
    {
      status, result := tree.Apply(limits, env.driver, At("write-powercap"));
    }
  }
}
