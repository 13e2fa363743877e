// The daemon over the real pair: every published value has a source exactly when it is present, and every live mark
// is the value of the file, zone or EC byte it came from.
module ConvergedSoundness {
  import opened Types
  import opened EcMemory
  import opened Attributions
  import opened Backends
  import opened Overlays
  import opened Powercap
  import opened Converged
  import opened Transactions
  import opened DaemonSoundness
  import opened PairSoundness
  import St = Standard
  import Hw = Hwmon
  import Am = Amw0
  import AmOps = Amw0Ops
  import AmTh = Amw0Theorems
  import AmClass = Amw0Class
  import Store = PowerStore

  type World = Store.World

  /** A live mark names the half whose value is published. */
  predicate Vouched(a: Attribution, standard: bool, amw0: bool)
  {
    a.freshness == "live" ==> (a.source == "standard" && standard) || (a.source == "amw0" && amw0)
  }

  ghost predicate PowerVouched(s: Snapshot, zone: PowerLimits, ec: Memory)
  {
    var f, l := s.meta.fields, s.effective.power;
    && Vouched(f.pl1, l.pl1 == zone.pl1, l.pl1 == OptByte(true, ec[PL1]))
    && Vouched(f.pl2, l.pl2 == zone.pl2, l.pl2 == OptByte(true, ec[PL2]))
    && Vouched(f.pl4, false, l.pl4 == OptByte(true, ec[PL4]))
    && Vouched(f.tcc, false, l.tcc == OptByte(true, ec[TCC_OFFSET]))
  }

  /** Every thermal value is the reading of its own sensor: of the one that wins its role in hwmon, of the thermal zone
      that fills in for it, or of the EC byte. */
  ghost predicate ShownByEither(t: Thermal, x: St.Sensors, ec: Memory)
  {
    && (t.hasCpuTemp ==> St.CpuTempFrom(x, t.cpuTemp) || t.cpuTemp == ec[CPUT])
    && (t.hasGpuTemp ==> St.GpuTempFrom(x, t.gpuTemp) || t.gpuTemp == ec[PCHT])
    && (t.hasCpuFan ==> St.HwmonFan(x, Hw.CpuFan, t.cpuFan)) && (t.hasGpuFan ==> St.HwmonFan(x, Hw.GpuFan, t.gpuFan))
    && (t.hasVendorLevel ==> t.vendorLevel == ec[FFAN] % 16)
  }

  /** A live thermal mark names the half all values come from, or says that they come from both. */
  ghost predicate ThermalVouched(s: Snapshot, x: St.Sensors, ec: Memory)
  {
    var m := s.meta.thermal;
    m.freshness == "live" ==>
      && (m.source == "standard" || m.source == "amw0" || m.source == "mixed")
      && (m.source == "standard" ==> St.ShownBySensors(s.thermal, x))
      && (m.source == "amw0" ==> AmTh.ThermalTrue(s.thermal, ec))
      && ShownByEither(s.thermal, x, ec)
  }

  ghost predicate TrueToPair(s: Snapshot, sys: St.Sys, ec: Memory)
  {
    && Vouched(s.meta.profile, s.effective.profile == St.AliasFromProfile(sys.profile),
               s.effective.profile == ModeName(Am.DecodeMode(ec[MODE_CONTROL])))
    && Vouched(s.meta.fanBoost, false, s.effective.boost == Am.BoostBit(ec[MODE_CONTROL]))
    && PowerVouched(s, Shown(sys.power), ec)
    && s.meta.fanTable.freshness != "live"
    && ThermalVouched(s, sys.sensors, ec)
  }

  ghost predicate StandardTruth(s: Snapshot, sys: St.Sys) { St.TrueToSys(s, sys) }
  predicate Amw0Truth(a: Snapshot, t: Am.State) { AmTh.TrueToEc(a, t.ec) && NamesPresent(a) }
  ghost predicate PairTruth(s: Snapshot, p: World) { TrueToPair(s, p.standard, p.amw0.ec) }

  predicate StandardOrder(sys: St.Sys) { sys.profile != "" }
  predicate Amw0Order(t: Am.State) { AmTh.ShadowOk(t) }
  predicate WorldOrder(p: World) { StandardOrder(p.standard) && Amw0Order(p.amw0) }

  // ----- each half is good

  lemma StandardIsGood(env: St.Env)
    ensures Good(St.Table(env), StandardOrder, StandardTruth)
  {
    var b := St.Table(env);
    forall sys: St.Sys, old_: Snapshot, r: Result | StandardOrder(sys)
      ensures GoodRead(b, StandardOrder, StandardTruth, sys, old_, r)
    {
      if St.Read(sys, env).status == Ok {
        St.ReadIsSound(sys, env);
        St.ReadIsTrue(sys, env);
      }
    }
    forall sys: St.Sys, op: Operation, r: Result | StandardOrder(sys)
      ensures GoodApply(b, StandardOrder, sys, op, r)
    {
    }
  }

  lemma Amw0IsGood(hw: Am.Hardware)
    ensures Good(AmOps.Table(hw), Amw0Order, Amw0Truth)
  {
    var b := AmOps.Table(hw);
    forall t: Am.State, old_: Snapshot, r: Result | Amw0Order(t)
      ensures GoodRead(b, Amw0Order, Amw0Truth, t, old_, r)
    {
      AmTh.ReadIsSound(t, hw);
      AmTh.ReadTargetsAgree(t, hw);
    }
    forall t: Am.State, op: Operation, r: Result | Amw0Order(t)
      ensures GoodApply(b, Amw0Order, t, op, r)
    {
      AmTh.OperationKeepsShadow(t, hw, op, r);
    }
  }

  lemma Amw0ReadSteady(hw: Am.Hardware)
    ensures Steady(AmOps.Table(hw), Amw0Order, PairTruth)
  {
    forall s: Snapshot, p: World, old_: Snapshot, r: Result | Amw0Order(p.amw0) && PairTruth(s, p)
      ensures SteadyRead(AmOps.Table(hw), PairTruth, s, p, old_, r)
    {
      AmTh.ReadIsSound(p.amw0, hw);
    }
  }

  // ----- the truth of an overlay

  lemma StandardTruthCounts(s: Snapshot, p: World)
    requires StandardTruth(s, p.standard)
    ensures PairTruth(s, p)
  {
  }

  lemma Amw0TruthCounts(s: Snapshot, p: World)
    requires Amw0Truth(s, p.amw0)
    ensures PairTruth(s, p)
  {
  }

  lemma FieldStaysVouched(under: Field, over: Field, replace: bool, shown: OptByte, live: OptByte)
    requires Vouched(under.mark, under.effective == shown, under.effective == live)
    requires LiveFrom(over.mark, "amw0", over.effective == live)
    requires Explains(over.mark, over.effective.present)
    ensures var f := OverlayField(under, over, replace); Vouched(f.mark, f.effective == shown, f.effective == live)
  {
  }

  lemma UnseenFieldStaysVouched(under: Field, over: Field, replace: bool, live: OptByte)
    requires Vouched(under.mark, false, under.effective == live)
    requires LiveFrom(over.mark, "amw0", over.effective == live)
    requires Explains(over.mark, over.effective.present)
    ensures var f := OverlayField(under, over, replace); Vouched(f.mark, false, f.effective == live)
  {
  }

  lemma OverlaidPowerVouched(s: Snapshot, a: Snapshot, replace: bool, zone: PowerLimits, ec: Memory)
    requires PowerVouched(s, zone, ec) && AmTh.TrueToEc(a, ec) && FieldsExplain(a.meta.fields, a.effective.power)
    ensures PowerVouched(OverlayPower(s, a, replace), zone, ec)
  {
    FieldStaysVouched(GetField(s, Pl1), GetField(a, Pl1), replace, zone.pl1, OptByte(true, ec[PL1]));
    FieldStaysVouched(GetField(s, Pl2), GetField(a, Pl2), replace, zone.pl2, OptByte(true, ec[PL2]));
    UnseenFieldStaysVouched(GetField(s, Pl4), GetField(a, Pl4), replace, OptByte(true, ec[PL4]));
    UnseenFieldStaysVouched(GetField(s, Tcc), GetField(a, Tcc), replace, OptByte(true, ec[TCC_OFFSET]));
  }

  lemma MergedLive(x: Text32, y: Text32)
    requires MergeText(x, y) == "live"
    ensures (x == "live" || x == "") && (y == "live" || y == "")
  {
    assert |"mixed"| == 5 && |"live"| == 4;
  }

  lemma SourceNames()
    ensures "standard" != "amw0" && "standard" != "mixed" && "amw0" != "mixed" && "live" != "mixed"
  {
    assert |"standard"| == 8 && |"amw0"| == 4 && |"mixed"| == 5;
  }

  lemma OverlaidThermalVouched(s: Snapshot, a: Snapshot, x: St.Sensors, ec: Memory)
    requires ThermalVouched(s, x, ec) && AmTh.TrueToEc(a, ec)
    requires Explains(s.meta.thermal, s.thermal.AnyPresent()) && Explains(a.meta.thermal, a.thermal.AnyPresent())
    ensures ThermalVouched(OverlayThermal(s, a), x, ec)
  {
    SourceNames();
    var o := OverlayThermal(s, a);
    if o.meta.thermal.freshness == "live" && a.meta.thermal.Given() {
      MergedLive(s.meta.thermal.freshness, a.meta.thermal.freshness);
      if s.thermal.AnyPresent() {
        assert ShownByEither(s.thermal, x, ec);
      }
    }
  }

  lemma OverlaidNamesVouched(s: Snapshot, a: Snapshot, r: Routes, sys: St.Sys, ec: Memory)
    requires TrueToPair(s, sys, ec) && AmTh.TrueToEc(a, ec) && NamesPresent(a)
    ensures TrueToPair(OverlayBoost(OverlayNames(s, a, r), a), sys, ec)
  {
  }

  lemma SummariesTellNothing(s: Snapshot, sys: St.Sys, ec: Memory)
    requires TrueToPair(s, sys, ec)
    ensures TrueToPair(s.(meta := Finalized(s.meta)), sys, ec)
  {
  }

  lemma OverlaidPowerTrue(s: Snapshot, a: Snapshot, replace: bool, sys: St.Sys, ec: Memory)
    requires TrueToPair(s, sys, ec) && AmTh.TrueToEc(a, ec) && FieldsExplain(a.meta.fields, a.effective.power)
    ensures TrueToPair(OverlayPower(s, a, replace), sys, ec)
  {
    OverlaidPowerVouched(s, a, replace, Shown(sys.power), ec);
    var o := OverlayPower(s, a, replace);
    assert o.meta == s.meta.(fields := o.meta.fields) && o.thermal == s.thermal;
    assert o.effective.profile == s.effective.profile && o.effective.boost == s.effective.boost;
  }

  lemma OverlaidThermalTrue(s: Snapshot, a: Snapshot, sys: St.Sys, ec: Memory)
    requires TrueToPair(s, sys, ec) && AmTh.TrueToEc(a, ec) && Explained(s) && Explained(a)
    ensures TrueToPair(OverlayThermal(s, a), sys, ec)
  {
    OverlaidThermalVouched(s, a, sys.sensors, ec);
    var o := OverlayThermal(s, a);
    assert o.meta == s.meta.(thermal := o.meta.thermal) && o.effective == s.effective;
  }

  lemma OverlayIsTrue(s: Snapshot, a: Snapshot, r: Routes, p: World)
    requires Explained(s) && WellFormed(a) && PairTruth(s, p) && Amw0Truth(a, p.amw0)
    ensures PairTruth(Overlay(s, a, r), p)
  {
    var sys, ec := p.standard, p.amw0.ec;
    var s0 := OverlayNames(s, a, r);
    NamesExplained(s, a, r);
    var s1 := OverlayBoost(s0, a);
    OverlaidNamesVouched(s, a, r, sys, ec);
    BoostExplained(s0, a);
    var s2 := OverlayPower(s1, a, r.power);
    OverlaidPowerTrue(s1, a, r.power, sys, ec);
    PowerExplained(s1, a, r.power);
    OverlaidThermalTrue(s2, a, sys, ec);
    SummariesTellNothing(OverlayThermal(s2, a), sys, ec);
  }

  lemma PairTruthCombines()
    ensures Combines(StandardTruth, Amw0Truth, PairTruth)
  {
    forall s: Snapshot, p: World | StandardTruth(s, p.standard)
      ensures PairTruth(s, p)
    {
      StandardTruthCounts(s, p);
    }
    forall s: Snapshot, p: World | Amw0Truth(s, p.amw0)
      ensures PairTruth(s, p)
    {
      Amw0TruthCounts(s, p);
    }
    forall s: Snapshot, a: Snapshot, r: Routes, p: World | Explained(s) && WellFormed(a) && PairTruth(s, p) &&
        Amw0Truth(a, p.amw0)
      ensures PairTruth(Overlay(s, a, r), p)
    {
      OverlayIsTrue(s, a, r, p);
    }
  }

  // ----- the theorem

  ghost function In(c: Config, w: Store.Weather): Ops<World>
  {
    Table(c, St.Table(w.env), AmOps.Table(w.hw), AmOps.Table(w.again))
  }

  lemma ConvergedIsGood(c: Config, w: Store.Weather)
    requires Configured(c)
    ensures Good(In(c, w), WorldOrder, PairTruth) && AboutPublished(PairTruth)
  {
    StandardIsGood(w.env);
    Amw0IsGood(w.hw);
    Amw0IsGood(w.again);
    PairTruthCombines();
    Amw0ReadSteady(w.again);
    PairIsGood(c, St.Table(w.env), AmOps.Table(w.hw), AmOps.Table(w.again), StandardOrder, Amw0Order, StandardTruth,
               Amw0Truth,
               WorldOrder, PairTruth);
  }

  /** What the daemon lives through: requests in any weather, and hardware that changes by itself. */
  datatype Moment = Asked(weather: Store.Weather, request: Request) | Changed(world: World)

  ghost function Lived(c: Config, moments: seq<Moment>): seq<Happening<World>>
  {
    seq(|moments|, i requires 0 <= i < |moments| =>
      match moments[i]
      case Asked(w, request) => Called(In(c, w), request)
      case Changed(world) => Drifted(world))
  }

  lemma LivedIsAllowed(c: Config, moments: seq<Moment>)
    requires Configured(c) && forall m | m in moments && m.Changed? :: WorldOrder(m.world)
    ensures Allowed(Lived(c, moments), WorldOrder, PairTruth)
  {
    var events := Lived(c, moments);
    forall i | 0 <= i < |events|
      ensures events[i].Called? ==> Good(events[i].backend, WorldOrder, PairTruth)
      ensures events[i].Drifted? ==> WorldOrder(events[i].ctx)
    {
      assert moments[i] in moments;
      if moments[i].Asked? {
        ConvergedIsGood(c, moments[i].weather);
      }
    }
  }

  lemma AskedIsCalled(c: Config, moments: seq<Moment>)
    requires forall m | m in moments :: m.Asked?
    ensures forall i | 0 <= i < |Lived(c, moments)| :: Lived(c, moments)[i].Called?
  {
    forall i | 0 <= i < |moments|
      ensures Lived(c, moments)[i].Called?
    {
      assert moments[i] in moments;
    }
  }

  /** A daemon started on a cleared cache. */
  ghost function Booted(c: Config, w: Store.Weather, start: World, caps: Capabilities): Daemon<World>
  {
    var f := Refresh(In(c, w), start, EmptySnapshot());
    Daemon(f.ctx, caps, f.cache)
  }

  lemma BootedInOrder(c: Config, w: Store.Weather, start: World, caps: Capabilities)
    requires Configured(c) && WorldOrder(start)
    ensures InOrder(Booted(c, w, start, caps), WorldOrder) && Current(Booted(c, w, start, caps), PairTruth)
    ensures AboutPublished(PairTruth)
  {
    ConvergedIsGood(c, w);
    FirstRefreshSound(In(c, w), WorldOrder, PairTruth, start, caps);
  }

  lemma LifeInOrder(c: Config, d: Daemon<World>, moments: seq<Moment>)
    requires Configured(c) && InOrder(d, WorldOrder) && Current(d, PairTruth) && AboutPublished(PairTruth)
    requires forall m | m in moments && m.Changed? :: WorldOrder(m.world)
    ensures var n := Life(d, Lived(c, moments));
      InOrder(n, WorldOrder) && ((forall m | m in moments :: m.Asked?) ==> Current(n, PairTruth))
  {
    LivedIsAllowed(c, moments);
    AlwaysSound(d, Lived(c, moments), WorldOrder, PairTruth);
    if forall m | m in moments :: m.Asked? {
      AskedIsCalled(c, moments);
    }
  }

  /** A daemon started on a cleared cache publishes sound state for as long as platform_profile is never empty, and
      after every call that reached the hardware each live mark is the hardware's own value. */
  lemma EveryPublishedStateIsSound(c: Config, w: Store.Weather, start: World, caps: Capabilities, moments: seq<Moment>)
    requires Configured(c) && WorldOrder(start)
    requires forall m | m in moments && m.Changed? :: WorldOrder(m.world)
    ensures var n := Life(Booted(c, w, start, caps), Lived(c, moments));
      && Sound(n.cache)
      && ((forall m | m in moments :: m.Asked?) ==> OnlyCache(n.cache.meta) || PairTruth(n.cache, n.ctx))
  {
    BootedInOrder(c, w, start, caps);
    LifeInOrder(c, Booted(c, w, start, caps), moments);
  }

  /** The same after drift: whenever the last moment was a request that reached the hardware, the live marks are true
      again. */
  lemma TrueAgainAfterACall(c: Config, w: Store.Weather, start: World, caps: Capabilities, moments: seq<Moment>,
                            last: Moment)
    requires Configured(c) && WorldOrder(start) && last.Asked?
    requires forall m | m in moments && m.Changed? :: WorldOrder(m.world)
    requires var d := Life(Booted(c, w, start, caps), Lived(c, moments));
      Reaches(d.caps, Stage(d.cache.requested, last.request))
    ensures var d := Life(Booted(c, w, start, caps), Lived(c, moments));
      var n := Execute(In(c, last.weather), d, last.request).0;
      OnlyCache(n.cache.meta) || PairTruth(n.cache, n.ctx)
  {
    BootedInOrder(c, w, start, caps);
    LifeInOrder(c, Booted(c, w, start, caps), moments);
    ConvergedIsGood(c, last.weather);
    ExecuteSound(In(c, last.weather), WorldOrder, PairTruth, Life(Booted(c, w, start, caps), Lived(c, moments)),
                 last.request);
  }

  lemma SeededShadowOk(dryRun: bool, ec: Memory)
    ensures Amw0Order(Am.State(dryRun, 0, 0, false, 0, AmClass.SeedShadow(), ec))
  {
    var m := EmptyMeta().(profile := Cached(), fanTable := Cached());
    assert Explains(Cached(), true);
    FinalizeIdempotent(m);
  }
}
