// The standard backend: platform_profile, hwmon, thermal zones and powercap behind one operation table
// (src/backends/standard/backend.c, platform_profile.c, thermal.c).
module Standard {
  import opened Types
  import opened Attributions
  import opened Backends
  import opened Powercap
  import opened Hwmon

  datatype ThermalZones = Shut(error: Failure) | Temps(millidegrees: seq<u32>)

  datatype Sensors = Sensors(hwmon: Listing, zones: ThermalZones)

  /** What is in sysfs: the trimmed platform_profile text, the powercap tree, and the sensors as the last read met
      them. */
  datatype Sys = Sys(profile: Text64, power: Directory, sensors: Sensors)

  /** What one write of platform_profile does: closing the file may report an error although the text was stored. */
  datatype ProfileWrite = Saved | Denied(error: FileError) | SavedUnconfirmed

  /** The environment of one call: whether platform_profile can be read or written, what the sensors have come to show,
      and how the powercap driver answers. */
  datatype Env = Env(
    profileRead: Status,
    profileWrite: ProfileWrite,
    sensors: Sensors,
    driver: Driver)

  // ----- platform profile

  function AliasFromProfile(text: Text64): Text64
  {
    if text == "low-power" then "office"
    else if text == "performance" then "turbo"
    else if text == "custom" then "custom"
    else if text == "balanced" then "balanced"
    else text
  }

  function ProfileFromAlias(name: string): Option<Text64>
  {
    if name == "office" || name == "low-power" then Some("low-power")
    else if name == "turbo" || name == "performance" then Some("performance")
    else if name == "gaming" || name == "balanced" then Some("balanced")
    else if name == "custom" then Some("custom")
    else None
  }

  function ProfileFromMode(mode: Mode): Text64
  {
    match mode
    case Office => "low-power"
    case Turbo => "performance"
    case Gaming => "balanced"
    case Custom => "custom"
  }

  // ----- thermal zones: the first readable one fills the CPU slot if free, the next the GPU slot

  function FillTemps(t: Thermal, temps: seq<u32>): Thermal
    decreases |temps|
  {
    if temps == [] then t
    else
      var next := if !t.hasCpuTemp then t.(hasCpuTemp := true, cpuTemp := temps[0] / 1000 % 0x100)
                  else if !t.hasGpuTemp then t.(hasGpuTemp := true, gpuTemp := temps[0] / 1000 % 0x100)
                  else t;
      FillTemps(next, temps[1..])
  }

  function ReadThermalZones(zones: ThermalZones, was: Thermal): (Status, Thermal)
  {
    match zones
    case Shut(error) => (error, was)
    case Temps(temps) => (if temps == [] then NotFound else Ok, FillTemps(was, temps))
  }

  // ----- reading

  function LiveStandard(): Attribution { Attribution("standard", "live") }

  /** A source that fails with anything but NOT_FOUND or NOT_SUPPORTED ends the read. */
  predicate Ends(status: Status)
  {
    status != Ok && status != NotFound && status != NotSupported
  }

  function Begun(): Snapshot
  {
    var target := EmptyTarget().(fanTable := "system-default");
    EmptySnapshot().(backendName := "standard", selected := "standard",
                     execution := Execution("standard", "standard", "standard", "", "", ""),
                     requested := target, effective := target,
                     meta := EmptyMeta().(fanTable := Cached()))
  }

  function AfterProfile(sys: Sys, env: Env, s: Snapshot): Snapshot
  {
    if env.profileRead != Ok then s
    else s.(requested := s.requested.(profile := AliasFromProfile(sys.profile)),
            effective := s.effective.(profile := AliasFromProfile(sys.profile)),
            meta := s.meta.(profile := LiveStandard()))
  }

  /** The hwmon and thermal-zone steps: new thermal values, and their mark if the step succeeded. */
  function AfterThermal(step: (Status, Thermal), s: Snapshot): Snapshot
  {
    s.(thermal := step.1,
       meta := if step.0 == Ok then s.meta.(thermal := MergeComponent(s.meta.thermal, LiveStandard())) else s.meta)
  }

  ghost function PowercapStatus(d: Directory): Status
  {
    match SelectedZone(d)
    case None => if d.Unopenable? then d.error else NotFound
    case Some(_) => if Shown(d).AnyPresent() then Ok else NotFound
  }

  ghost function AfterPowercap(d: Directory, s: Snapshot): Snapshot
  {
    if PowercapStatus(d) != Ok then s
    else s.(requested := s.requested.(hasPower := true, power := Shown(d)),
            effective := s.effective.(hasPower := true, power := Shown(d)),
            meta := PowerFromLimits(s.meta, Some(Shown(d)), LiveStandard()))
  }

  function At(stage: string): Result
  {
    SetStage(ResetResult().(executor := "standard"), stage)
  }

  /** `standard_read_state`: four sources in order; at least one must answer. */
  ghost function Read(sys: Sys, env: Env): ReadReply<Sys>
  {
    var met := sys.(sensors := env.sensors);
    var s1 := AfterProfile(sys, env, Begun());
    if Ends(env.profileRead) then ReadReply(met, env.profileRead, s1, At("read-platform-profile"))
    else
      var hwmon := ReadHwmon(env.sensors.hwmon, s1.thermal);
      var s2 := AfterThermal(hwmon, s1);
      if Ends(hwmon.0) then ReadReply(met, hwmon.0, s2, At("read-hwmon"))
      else
        var zones := ReadThermalZones(env.sensors.zones, s2.thermal);
        var s3 := AfterThermal(zones, s2);
        if Ends(zones.0) then ReadReply(met, zones.0, s3, At("read-thermal"))
        else
          var s4 := AfterPowercap(sys.power, s3);
          if Ends(PowercapStatus(sys.power)) then ReadReply(met, PowercapStatus(sys.power), s4, At("read-powercap"))
          else if env.profileRead != Ok && hwmon.0 != Ok && zones.0 != Ok && PowercapStatus(sys.power) != Ok then
            ReadReply(met, NotFound, s4, SetDetail(At("read-powercap"),
                                                   "no standard Linux ABI state source returned data"))
          else ReadReply(met, Ok, s4.(meta := Finalized(s4.meta)), At("read-powercap"))
  }

  // ----- applying

  function WriteProfile(sys: Sys, env: Env, text: Text64): Reply<Sys>
  {
    var r := At("write-platform-profile");
    match env.profileWrite
    case Saved => Reply(sys.(profile := text), Ok, r.(changed := true, hardwareWrite := true))
    case Denied(error) => Reply(sys, error, SetDetail(r, "platform_profile write failed"))
    case SavedUnconfirmed => Reply(sys.(profile := text), IoError, SetDetail(r, "platform_profile write failed"))
  }

  ghost function SetPower(sys: Sys, env: Env, limits: PowerLimits): Reply<Sys>
  {
    var a := ApplyLimits(sys.power, limits, env.driver, At("write-powercap"));
    Reply(sys.(power := a.directory), a.status, a.result)
  }

  ghost function Table(env: Env): Ops<Sys>
  {
    Ops("standard",
        (sys: Sys, old_: Snapshot, r: Result) => Read(sys, env),
        (sys: Sys, op: Operation, r: Result) =>
          match op
          case ApplyProfile(name) =>
            (match ProfileFromAlias(name)
             case None => Reply(sys, NotSupported, SetDetail(At("write-platform-profile"),
                                                             "platform_profile alias unsupported"))
             case Some(text) => WriteProfile(sys, env, text))
          case ApplyMode(mode) => WriteProfile(sys, env, ProfileFromMode(mode))
          case ApplyPower(limits) => SetPower(sys, env, limits)
          case ApplyFanTable(_) =>
            Reply(sys, NotSupported, SetDetail(At(""), "standard backend does not support fan table writes"))
          case ApplyFanBoost(_) =>
            Reply(sys, NotSupported, SetDetail(At(""), "standard backend does not support fan boost writes")))
  }

  // ----- a sound read

  lemma {:induction false} FillTempsPresent(t: Thermal, temps: seq<u32>)
    ensures FillTemps(t, temps).AnyPresent() <==> t.AnyPresent() || temps != []
    decreases |temps|
  {
    if temps != [] {
      var next := if !t.hasCpuTemp then t.(hasCpuTemp := true, cpuTemp := temps[0] / 1000 % 0x100)
                  else if !t.hasGpuTemp then t.(hasGpuTemp := true, gpuTemp := temps[0] / 1000 % 0x100)
                  else t;
      assert next.AnyPresent();
      FillTempsPresent(next, temps[1..]);
    }
  }

  lemma BegunExplained(sys: Sys, env: Env)
    ensures Explained(AfterProfile(sys, env, Begun())) <==> (env.profileRead == Ok ==> sys.profile != "")
    ensures PowerCoherent(AfterProfile(sys, env, Begun()).effective)
  {
    assert |"office"| == 6 && |"turbo"| == 5 && |"custom"| == 6 && |"balanced"| == 8;
  }

  lemma ThermalStepExplains(step: (Status, Thermal), s: Snapshot)
    requires step.1.AnyPresent() <==> s.thermal.AnyPresent() || step.0 == Ok
    requires Explains(s.meta.thermal, s.thermal.AnyPresent())
    ensures Explained(AfterThermal(step, s)) <==> Explained(s)
    ensures Explains(AfterThermal(step, s).meta.thermal, AfterThermal(step, s).thermal.AnyPresent())
  {
  }

  lemma PowercapStepExplains(d: Directory, s: Snapshot)
    requires s.effective.power == NO_LIMITS && s.meta.fields == NoPowerAttribution() && !s.effective.hasPower
    ensures Explained(AfterPowercap(d, s)) <==> Explained(s)
    ensures PowerCoherent(AfterPowercap(d, s).effective)
  {
  }

  // ----- what "live" promises about a standard snapshot

  /** The thermal zone that fills the `slot`-th temperature hwmon left free. */
  predicate ZoneFills(zones: ThermalZones, slot: nat, temp: byte)
  {
    zones.Temps? && slot < |zones.millidegrees| && temp == zones.millidegrees[slot] / 1000 % 0x100
  }

  ghost predicate HwmonTemp(x: Sensors, role: Role, temp: byte)
  {
    exists raw: u32 :: Wins(x.hwmon, role, raw) && temp == raw / 1000 % 0x100
  }

  ghost predicate HwmonFan(x: Sensors, role: Role, speed: u16)
  {
    exists raw: u32 :: Wins(x.hwmon, role, raw) && speed == raw % 0x1_0000
  }

  /** The CPU temperature is the one that wins its role in hwmon, or without one the first thermal zone. */
  ghost predicate CpuTempFrom(x: Sensors, temp: byte)
  {
    if Won(x.hwmon, CpuTemp) then HwmonTemp(x, CpuTemp, temp) else ZoneFills(x.zones, 0, temp)
  }

  /** The GPU temperature likewise, or without one the first zone the CPU did not need. */
  ghost predicate GpuTempFrom(x: Sensors, temp: byte)
  {
    if Won(x.hwmon, GpuTemp) then HwmonTemp(x, GpuTemp, temp)
    else ZoneFills(x.zones, if Won(x.hwmon, CpuTemp) then 0 else 1, temp)
  }

  /** Every thermal value comes from its own sensor. */
  ghost predicate ShownBySensors(t: Thermal, x: Sensors)
  {
    && (t.hasCpuTemp ==> CpuTempFrom(x, t.cpuTemp)) && (t.hasGpuTemp ==> GpuTempFrom(x, t.gpuTemp))
    && (t.hasCpuFan ==> HwmonFan(x, CpuFan, t.cpuFan)) && (t.hasGpuFan ==> HwmonFan(x, GpuFan, t.gpuFan))
    && !t.hasVendorLevel
  }

  ghost predicate TrueToSys(s: Snapshot, sys: Sys)
  {
    && LiveFrom(s.meta.profile, "standard", s.effective.profile == AliasFromProfile(sys.profile))
    && LiveFrom(s.meta.fields.pl1, "standard", s.effective.power.pl1 == Shown(sys.power).pl1)
    && LiveFrom(s.meta.fields.pl2, "standard", s.effective.power.pl2 == Shown(sys.power).pl2)
    && s.meta.fields.pl4.freshness != "live" && s.meta.fields.tcc.freshness != "live"
    && s.meta.fanTable.freshness != "live" && s.meta.fanBoost.freshness != "live"
    && LiveFrom(s.meta.thermal, "standard", ShownBySensors(s.thermal, sys.sensors))
  }

  /** What the hwmon step leaves: the winners and nothing else. */
  ghost predicate HwmonStep(x: Sensors, t: Thermal)
  {
    && (t.hasCpuTemp <==> Won(x.hwmon, CpuTemp)) && (t.hasCpuTemp ==> HwmonTemp(x, CpuTemp, t.cpuTemp))
    && (t.hasGpuTemp <==> Won(x.hwmon, GpuTemp)) && (t.hasGpuTemp ==> HwmonTemp(x, GpuTemp, t.gpuTemp))
    && (t.hasCpuFan ==> HwmonFan(x, CpuFan, t.cpuFan)) && (t.hasGpuFan ==> HwmonFan(x, GpuFan, t.gpuFan))
    && !t.hasVendorLevel
  }

  lemma HwmonShowsWinners(x: Sensors)
    ensures HwmonStep(x, ReadHwmon(x.hwmon, NO_THERMAL).1)
  {
    if x.hwmon.Nodes? {
      BestWins(x.hwmon.nodes, CpuTemp);
      BestWins(x.hwmon.nodes, GpuTemp);
      BestWins(x.hwmon.nodes, CpuFan);
      BestWins(x.hwmon.nodes, GpuFan);
    }
  }

  /** The zones fill the free slots in order and touch nothing else. */
  lemma {:induction false} TempsFillFreeSlots(t: Thermal, temps: seq<u32>)
    ensures var n := FillTemps(t, temps);
      && n == t.(hasCpuTemp := n.hasCpuTemp, cpuTemp := n.cpuTemp, hasGpuTemp := n.hasGpuTemp, gpuTemp := n.gpuTemp)
      && (if t.hasCpuTemp then n.hasCpuTemp && n.cpuTemp == t.cpuTemp
          else n.hasCpuTemp ==> ZoneFills(Temps(temps), 0, n.cpuTemp))
      && (if t.hasGpuTemp then n.hasGpuTemp && n.gpuTemp == t.gpuTemp
          else n.hasGpuTemp ==> ZoneFills(Temps(temps), if t.hasCpuTemp then 0 else 1, n.gpuTemp))
    decreases |temps|
  {
    if temps != [] {
      var next := if !t.hasCpuTemp then t.(hasCpuTemp := true, cpuTemp := temps[0] / 1000 % 0x100)
                  else if !t.hasGpuTemp then t.(hasGpuTemp := true, gpuTemp := temps[0] / 1000 % 0x100)
                  else t;
      TempsFillFreeSlots(next, temps[1..]);
    }
  }

  lemma SensorStepsTrue(x: Sensors)
    ensures ShownBySensors(ReadThermalZones(x.zones, ReadHwmon(x.hwmon, NO_THERMAL).1).1, x)
  {
    HwmonShowsWinners(x);
    if x.zones.Temps? {
      TempsFillFreeSlots(ReadHwmon(x.hwmon, NO_THERMAL).1, x.zones.millidegrees);
    }
  }

  /** Everything the four sources contributed, before the summaries. */
  ghost function Collected(sys: Sys, env: Env): Snapshot
  {
    var s1 := AfterProfile(sys, env, Begun());
    var s2 := AfterThermal(ReadHwmon(env.sensors.hwmon, s1.thermal), s1);
    var s3 := AfterThermal(ReadThermalZones(env.sensors.zones, s2.thermal), s2);
    AfterPowercap(sys.power, s3)
  }

  lemma ReadIsCollected(sys: Sys, env: Env)
    requires Read(sys, env).status == Ok
    ensures var c := Collected(sys, env); Read(sys, env).snapshot == c.(meta := Finalized(c.meta))
    ensures Read(sys, env).next == sys.(sensors := env.sensors)
  {
  }

  lemma SummariesTellNothing(s: Snapshot, sys: Sys)
    requires TrueToSys(s, sys)
    ensures TrueToSys(s.(meta := Finalized(s.meta)), sys)
  {
  }

  /** What was collected is explained exactly when platform_profile, if it was read, is not empty. */
  lemma CollectedIsExplained(sys: Sys, env: Env)
    ensures Explained(Collected(sys, env)) <==> (env.profileRead == Ok ==> sys.profile != "")
    ensures PowerCoherent(Collected(sys, env).effective)
  {
    var s1 := AfterProfile(sys, env, Begun());
    BegunExplained(sys, env);
    var hwmon := ReadHwmon(env.sensors.hwmon, s1.thermal);
    ThermalStepExplains(hwmon, s1);
    var s2 := AfterThermal(hwmon, s1);
    var zones := ReadThermalZones(env.sensors.zones, s2.thermal);
    if env.sensors.zones.Temps? {
      FillTempsPresent(s2.thermal, env.sensors.zones.millidegrees);
    }
    ThermalStepExplains(zones, s2);
    PowercapStepExplains(sys.power, AfterThermal(zones, s2));
  }

  /** A successful read is sound exactly when platform_profile, if it was read, is not empty. */
  lemma ReadIsSound(sys: Sys, env: Env)
    requires Read(sys, env).status == Ok
    ensures Sound(Read(sys, env).snapshot) <==> (env.profileRead == Ok ==> sys.profile != "")
    ensures PowerCoherent(Read(sys, env).snapshot.effective)
  {
    ReadIsCollected(sys, env);
    CollectedIsExplained(sys, env);
    SoundOnceFinalized(Collected(sys, env));
  }

  /** The profile step marks what it read; the fan table is never live. */
  lemma ProfileStepTrue(sys: Sys, env: Env)
    ensures var s := AfterProfile(sys, env, Begun());
      && LiveFrom(s.meta.profile, "standard", s.effective.profile == AliasFromProfile(sys.profile))
      && s.meta.fanTable == Cached() && s.meta.fanBoost == Unattributed() && s.meta.fields == NoPowerAttribution()
      && s.effective.power == NO_LIMITS && !s.effective.hasPower
      && s.thermal == NO_THERMAL && s.meta.thermal == Unattributed()
  {
  }

  lemma ThermalStepKeeps(step: (Status, Thermal), s: Snapshot)
    ensures var n := AfterThermal(step, s);
      && n.effective == s.effective && n.meta.profile == s.meta.profile && n.meta.fanTable == s.meta.fanTable
      && n.meta.fanBoost == s.meta.fanBoost && n.meta.fields == s.meta.fields && n.thermal == step.1
      && (s.meta.thermal in {Unattributed(), LiveStandard()} ==> n.meta.thermal in {Unattributed(), LiveStandard()})
  {
  }

  lemma NotLive()
    ensures Cached().freshness != "live" && Unattributed().freshness != "live"
  {
    assert "cache"[0] != "live"[0];
  }

  lemma PowercapStepTrue(s: Snapshot, sys: Sys)
    requires LiveFrom(s.meta.profile, "standard", s.effective.profile == AliasFromProfile(sys.profile))
    requires s.meta.fanTable == Cached() && s.meta.fanBoost == Unattributed() && s.meta.fields == NoPowerAttribution()
    requires s.effective.power == NO_LIMITS
    requires s.meta.thermal in {Unattributed(), LiveStandard()} && ShownBySensors(s.thermal, sys.sensors)
    ensures var n := AfterPowercap(sys.power, s); TrueToSys(n, sys) && n.effective.power == Shown(sys.power)
  {
    NotLive();
  }

  lemma CollectedIsTrue(sys: Sys, env: Env)
    ensures TrueToSys(Collected(sys, env), sys.(sensors := env.sensors))
    ensures Collected(sys, env).effective.power == Shown(sys.power)
  {
    var s1 := AfterProfile(sys, env, Begun());
    ProfileStepTrue(sys, env);
    var hwmon := ReadHwmon(env.sensors.hwmon, s1.thermal);
    var s2 := AfterThermal(hwmon, s1);
    ThermalStepKeeps(hwmon, s1);
    var zones := ReadThermalZones(env.sensors.zones, s2.thermal);
    ThermalStepKeeps(zones, s2);
    SensorStepsTrue(env.sensors);
    PowercapStepTrue(AfterThermal(zones, s2), sys.(sensors := env.sensors));
  }

  /** Live marks of a successful read are true of what it met, and the published limits are the zone's. */
  lemma ReadIsTrue(sys: Sys, env: Env)
    requires Read(sys, env).status == Ok
    ensures Read(sys, env).next == sys.(sensors := env.sensors)
    ensures TrueToSys(Read(sys, env).snapshot, Read(sys, env).next)
    ensures Read(sys, env).snapshot.effective.power == Shown(sys.power)
  {
    ReadIsCollected(sys, env);
    CollectedIsTrue(sys, env);
    SummariesTellNothing(Collected(sys, env), sys.(sensors := env.sensors));
  }
}
