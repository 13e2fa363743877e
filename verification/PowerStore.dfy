// The converged pair behaves like one power-limit store.
module PowerStore {
  import opened Types
  import opened EcMemory
  import opened Attributions
  import opened Backends
  import opened Overlays
  import opened Powercap
  import opened PowercapTheorems
  import opened Converged
  import opened PowerPairs
  import St = Standard
  import Am = Amw0
  import AmOps = Amw0Ops
  import AmTh = Amw0Theorems

  type World = Pair<St.Sys, Am.State>

  // ----- the AMW0 half

  lemma PowerStepsEffect(mem: Memory, l: PowerLimits)
    ensures forall f: PowerField ::
      Am.StepEffects(mem, AmOps.PowerSteps(l))[PowerAddress(f)] == if l.Get(f).present then l.Get(f).value
          else mem[PowerAddress(f)]
  {
    var p1, p2 := AmOps.PowerStep(l, Pl1), AmOps.PowerStep(l, Pl2);
    var p4, pt := AmOps.PowerStep(l, Pl4), AmOps.PowerStep(l, Tcc);
    OneStepEffect(mem, l, Pl1);
    var m1 := Am.StepEffects(mem, p1);
    OneStepEffect(m1, l, Pl2);
    Am.StepEffectsConcat(mem, p1, p2);
    var m2 := Am.StepEffects(m1, p2);
    OneStepEffect(m2, l, Pl4);
    Am.StepEffectsConcat(mem, p1 + p2, p4);
    var m4 := Am.StepEffects(m2, p4);
    OneStepEffect(m4, l, Tcc);
    Am.StepEffectsConcat(mem, p1 + p2 + p4, pt);
  }

  lemma OneStepEffect(mem: Memory, l: PowerLimits, f: PowerField)
    ensures Am.StepEffects(mem, AmOps.PowerStep(l, f)) ==
      if l.Get(f).present then mem[PowerAddress(f) as int := l.Get(f).value] else mem
  {
    var steps := AmOps.PowerStep(l, f);
    if steps != [] {
      assert steps[..0] == [];
    }
  }

  /** An AMW0 power write that succeeds overwrites the shadow, and a field it wrote is in the EC too. */
  lemma Amw0Overwrites(t: Am.State, hw: Am.Hardware, l: PowerLimits, incoming: Result)
    requires AmOps.SetPower(t, hw, l, incoming).status == Ok
    ensures var n := AmOps.SetPower(t, hw, l, incoming).next;
      && n.dryRun == t.dryRun && n.shadow.effective.power == t.shadow.effective.power.Overwrite(l)
      && (!t.dryRun ==> forall f: PowerField :: n.ec[PowerAddress(f)] == if l.Get(f).present then l.Get(f).value
          else t.ec[PowerAddress(f)])
  {
    Am.RunStepsConsistent(t, AmOps.PowerSteps(l), hw);
    PowerStepsEffect(t.ec, l);
  }

  // ----- the view of both

  /** What a converged read shows when both halves answer. */
  ghost function View(c: Config, p: World): PowerLimits
  {
    ThroughLimits(RoutesOf(c.execution).power, Shown(p.standard.power), p.amw0.shadow.effective.power)
  }

  ghost predicate OwnZone(d: Directory)
  {
    d.Zones? && exists z: nat :: Selected(d.zones, z) && OwnFiles(d.zones[z].constraints)
  }

  /** Both backends are up, AMW0 takes power writes, and the selected zone has two constraint files. */
  ghost predicate Ready(c: Config, p: World)
  {
    && Configured(c) && c.standardAvailable && c.amw0Available && c.standardCaps.canRead && c.amw0Caps.canPower
    && OwnZone(p.standard.power) && AmTh.ShadowOk(p.amw0)
  }

  /** One call's environment: the standard side, the AMW0 side, and the AMW0 side during the overlay read. */
  datatype Weather = Weather(env: St.Env, hw: Am.Hardware, again: Am.Hardware)

  ghost function ReadIn(c: Config, w: Weather, p: World): ReadOutcome<St.Sys, Am.State>
  {
    ReadState(c, St.Table(w.env), AmOps.Table(w.hw), AmOps.Table(w.again), p, EmptySnapshot(), ResetResult())
  }

  ghost function WriteIn(c: Config, w: Weather, p: World, l: PowerLimits): Outcome<St.Sys, Am.State>
  {
    ApplyAny(c, St.Table(w.env), AmOps.Table(w.hw), p, ApplyPower(l), ResetResult())
  }

  /** A read changes nothing of the standard half but what its sensors have come to show. */
  function Seen(sys: St.Sys, env: St.Env): St.Sys { sys.(sensors := env.sensors) }

  /** The standard side answers the read and AMW0 answers the overlay read. */
  ghost predicate BothAnswer(w: Weather, p: World)
  {
    St.Read(p.standard, w.env).status == Ok && AmOps.Read(p.amw0, w.again).status == Ok
  }

  lemma ReadShowsView(c: Config, w: Weather, p: World)
    requires Ready(c, p) && St.Read(p.standard, w.env).status == Ok
    ensures var r := ReadIn(c, w, p); var a := AmOps.Read(p.amw0, w.again);
      && r.status == Ok && r.next == Pair(Seen(p.standard, w.env), a.next)
      && r.snapshot.effective.power ==
           if a.status == Ok then ThroughLimits(RoutesOf(c.execution).power, Shown(p.standard.power),
                                                a.snapshot.effective.power)
           else Shown(p.standard.power)
  {
    AmTh.ReadIsSound(p.amw0, w.again);
    StandardReadShows(p.standard, w.env);
    ReadThrough(c, St.Table(w.env), AmOps.Table(w.hw), AmOps.Table(w.again), p);
  }

  lemma StandardReadShows(sys: St.Sys, env: St.Env)
    requires St.Read(sys, env).status == Ok
    ensures St.Read(sys, env).next == Seen(sys, env) && St.Read(sys, env).snapshot.effective.power == Shown(sys.power)
  {
    St.ReadIsTrue(sys, env);
  }

  /** The shadow after a read is what the read showed. */
  lemma ReadBecomesShadow(t: Am.State, hw: Am.Hardware)
    requires PowerCoherent(t.shadow.effective)
    ensures AmOps.Read(t, hw).next.shadow.effective.power == AmOps.Read(t, hw).snapshot.effective.power
  {
  }

  // ----- each half keeps its promise

  lemma ShownIsStandard(d: Directory)
    ensures Shown(d).pl4 == ABSENT && Shown(d).tcc == ABSENT
  {
  }

  lemma StandardStoreOverwrites(d: Directory, l: PowerLimits, driver: Driver, incoming: Result, z: nat)
    requires d.Zones? && Selected(d.zones, z) && OwnFiles(d.zones[z].constraints)
    ensures var a := ApplyLimits(d, l, driver, incoming);
      && (a.status == Ok ==> Shown(a.directory) == Shown(d).Overwrite(l) && Askable(l))
      && a.directory.Zones? && Selected(a.directory.zones, z) && OwnFiles(a.directory.zones[z].constraints)
      && (a.status == NotSupported ==> a.directory == d && (l.pl4.present || l.tcc.present))
  {
    ApplyOutcome(d, l, driver, incoming, z);
    var a := ApplyLimits(d, l, driver, incoming);
    if a.status == Ok {
      SuccessOverwrites(d, l, driver, incoming, z);
    }
    if Askable(l) {
      SelectionKnown(d, z);
      ZoneNeverUnsupported(d, l, driver, incoming, z);
    } else {
      RefusedUntouched(d, l, driver, incoming);
    }
  }

  ghost function ZoneLimits(sys: St.Sys): PowerLimits { Shown(sys.power) }
  ghost predicate ZoneReady(sys: St.Sys) { OwnZone(sys.power) }
  function ShadowLimits(t: Am.State): PowerLimits { t.shadow.effective.power }
  predicate ShadowReady(t: Am.State) { AmTh.ShadowOk(t) }

  lemma StandardStep(env: St.Env, sys: St.Sys, l: PowerLimits, r: Result)
    requires ZoneReady(sys)
    ensures UnderStep(St.Table(env), ZoneLimits, ZoneReady, sys, l, r)
  {
    var z: nat :| Selected(sys.power.zones, z) && OwnFiles(sys.power.zones[z].constraints);
    StandardStoreOverwrites(sys.power, l, env.driver, St.At("write-powercap"), z);
    ShownIsStandard(sys.power);
    assert Selected(St.SetPower(sys, env, l).next.power.zones, z);
  }

  lemma StandardKeepsPromise(env: St.Env)
    ensures UnderStore(St.Table(env), ZoneLimits, ZoneReady)
  {
    forall sys: St.Sys, l: PowerLimits, r: Result | ZoneReady(sys)
      ensures UnderStep(St.Table(env), ZoneLimits, ZoneReady, sys, l, r)
    {
      StandardStep(env, sys, l, r);
    }
  }

  lemma Amw0KeepsPromise(hw: Am.Hardware)
    ensures OverStore(AmOps.Table(hw), ShadowLimits, ShadowReady)
  {
    forall t: Am.State, l: PowerLimits, r: Result | ShadowReady(t)
      ensures OverStep(AmOps.Table(hw), ShadowLimits, ShadowReady, t, l, r)
    {
      AmTh.SetPowerKeeps(t, hw, l, r);
      if AmOps.SetPower(t, hw, l, r).status == Ok {
        Amw0Overwrites(t, hw, l, r);
      }
    }
  }

  /** However a power write is routed (split, direct or fallback), success overwrites the combined view by exactly the
      present fields. */
  lemma WriteOverwritesView(c: Config, w: Weather, p: World, l: PowerLimits)
    requires Ready(c, p) && WriteIn(c, w, p, l).status == Ok
    ensures var n := WriteIn(c, w, p, l).next;
      Ready(c, n) && View(c, n) == View(c, p).Overwrite(l)
  {
    StandardKeepsPromise(w.env);
    Amw0KeepsPromise(w.hw);
    PairOverwrites(c, St.Table(w.env), AmOps.Table(w.hw), ZoneLimits, ZoneReady, ShadowLimits, ShadowReady, p, l);
  }

  // ----- what a read shows beside the view

  /** Field by field, laying `over` on `under` changes nothing. */
  predicate NothingShowsThrough(replace: bool, under: PowerLimits, over: PowerLimits)
  {
    forall f: PowerField :: over.Get(f).present && (replace || !under.Get(f).present) ==> over.Get(f) == under.Get(f)
  }

  lemma SameLimits(a: PowerLimits, b: PowerLimits)
    ensures a == b <==> forall f: PowerField :: a.Get(f) == b.Get(f)
  {
    if forall f: PowerField :: a.Get(f) == b.Get(f) {
      assert a.Get(Pl1) == b.Get(Pl1) && a.Get(Pl2) == b.Get(Pl2) && a.Get(Pl4) == b.Get(Pl4) &&
        a.Get(Tcc) == b.Get(Tcc);
    }
  }

  lemma ThroughEach(replace: bool, under: PowerLimits, over: PowerLimits)
    ensures forall f: PowerField ::
      ThroughLimits(replace, under, over).Get(f) == Through(replace, under.Get(f), over.Get(f))
  {
  }

  lemma ThroughIsUnder(replace: bool, under: PowerLimits, over: PowerLimits)
    ensures ThroughLimits(replace, under, over) == under <==> NothingShowsThrough(replace, under, over)
  {
    ThroughEach(replace, under, over);
    SameLimits(ThroughLimits(replace, under, over), under);
  }

  /** The AMW0 limit of the field is the one a converged read shows. */
  ghost predicate Surfaces(c: Config, p: World, f: PowerField)
  {
    RoutesOf(c.execution).power || !Shown(p.standard.power).Get(f).present
  }

  /** A read under `hw` shows, in this field, an EC byte that the pair did not hold. */
  ghost predicate News(c: Config, p: World, hw: Am.Hardware, f: PowerField)
  {
    Surfaces(c, p, f) && AmOps.FieldLive(p.amw0, hw, f) &&
        View(c, p).Get(f) != OptByte(true, p.amw0.ec[PowerAddress(f)])
  }

  ghost predicate NoNews(c: Config, p: World, hw: Am.Hardware)
  {
    forall f: PowerField :: !News(c, p, hw, f)
  }

  /** What a read shows in the field when AMW0 answers it. */
  ghost function Sight(c: Config, p: World, hw: Am.Hardware, f: PowerField): OptByte
  {
    if News(c, p, hw, f) then OptByte(true, p.amw0.ec[PowerAddress(f)]) else View(c, p).Get(f)
  }

  /** Laying the limits of an answered AMW0 read over the standard ones shows the view, and the news instead where there
      is any. */
  lemma AnsweredReadShows(c: Config, p: World, hw: Am.Hardware)
    requires Ready(c, p)
    ensures var over := AmOps.Read(p.amw0, hw).snapshot.effective.power;
      forall f: PowerField ::
        ThroughLimits(RoutesOf(c.execution).power, Shown(p.standard.power), over).Get(f) == Sight(c, p, hw, f)
  {
    var replace, under := RoutesOf(c.execution).power, Shown(p.standard.power);
    ThroughEach(replace, under, p.amw0.shadow.effective.power);
    ThroughEach(replace, under, AmOps.Read(p.amw0, hw).snapshot.effective.power);
    ReadEach(p.amw0, hw);
  }

  lemma AnsweredReadExactly(c: Config, p: World, hw: Am.Hardware)
    requires Ready(c, p)
    ensures var over := AmOps.Read(p.amw0, hw).snapshot.effective.power;
      ThroughLimits(RoutesOf(c.execution).power, Shown(p.standard.power), over) == View(c, p) <==> NoNews(c, p, hw)
  {
    AnsweredReadShows(c, p, hw);
    SameLimits(ThroughLimits(RoutesOf(c.execution).power, Shown(p.standard.power),
                             AmOps.Read(p.amw0, hw).snapshot.effective.power),
               View(c, p));
  }

  lemma ReadEach(t: Am.State, hw: Am.Hardware)
    ensures forall f: PowerField ::
      AmOps.Read(t, hw).snapshot.effective.power.Get(f) == AmOps.ReadField(t, hw, f, t.shadow.effective.power.Get(f))
  {
  }

  /** A read without an answer from AMW0 leaves the shadow limits alone. */
  lemma UnansweredKeepsShadow(t: Am.State, hw: Am.Hardware)
    requires AmOps.Read(t, hw).status != Ok && PowerCoherent(t.shadow.effective)
    ensures AmOps.Read(t, hw).next.shadow.effective.power == t.shadow.effective.power
  {
    assert !AmOps.AnyLive(t, hw);
  }

  /** AMW0 holds the value for the field, in the shadow and in the EC. */
  predicate Holds(t: Am.State, f: PowerField, value: OptByte)
  {
    t.shadow.effective.power.Get(f) == value && (!t.dryRun ==> t.ec[PowerAddress(f)] == value.value)
  }

  lemma HeldIsNoNews(c: Config, p: World, hw: Am.Hardware, f: PowerField, value: OptByte)
    requires value.present && (Surfaces(c, p, f) ==> Holds(p.amw0, f, value))
    ensures !News(c, p, hw, f)
  {
    ThroughEach(RoutesOf(c.execution).power, Shown(p.standard.power), p.amw0.shadow.effective.power);
  }

  lemma StandardHalfShows(env: St.Env, sys: St.Sys, l: PowerLimits, r: Result)
    requires OwnZone(sys.power)
    ensures var a := St.SetPower(sys, env, l);
      && (a.status == Ok ==> Shown(a.next.power) == Shown(sys.power).Overwrite(l) && !l.pl4.present && !l.tcc.present)
      && (a.status == NotSupported ==> Shown(a.next.power) == Shown(sys.power) && (l.pl4.present || l.tcc.present))
  {
    StandardStep(env, sys, l, r);
  }

  lemma Amw0HalfHolds(hw: Am.Hardware, t: Am.State, l: PowerLimits, r: Result, f: PowerField)
    requires AmOps.SetPower(t, hw, l, r).status == Ok && l.Get(f).present
    ensures Holds(AmOps.SetPower(t, hw, l, r).next, f, l.Get(f))
  {
    Amw0Overwrites(t, hw, l, r);
  }

  /** The two stores that take the halves of a split write. */
  lemma SplitIsHeld(c: Config, w: Weather, p: World, l: PowerLimits, f: PowerField, n: World)
    requires Configured(c) && OwnZone(p.standard.power) && Splits(c, l) && l.Get(f).present
    requires var a := St.SetPower(p.standard, w.env, StandardPart(l)); a.status == Ok && n.standard == a.next
    requires var b := AmOps.SetPower(p.amw0, w.hw, Amw0Part(l), ResetResult()); b.status == Ok && n.amw0 == b.next
    ensures Surfaces(c, n, f) ==> Holds(n.amw0, f, l.Get(f))
  {
    ReplaceFlag(c);
    if Amw0Part(l).Get(f).present {
      Amw0HalfHolds(w.hw, p.amw0, Amw0Part(l), ResetResult(), f);
    } else {
      StandardHalfShows(w.env, p.standard, StandardPart(l), ResetResult());
    }
  }

  /** The standard half alone, or AMW0 after it declined. */
  lemma RoutedIsHeld(c: Config, w: Weather, p: World, l: PowerLimits, f: PowerField, n: World)
    requires Configured(c) && OwnZone(p.standard.power) && l.Get(f).present
    requires Takes(c, Standard, PowerRoute) && Takes(c, Amw0, PowerRoute) && !Splits(c, l)
    requires var a := St.SetPower(p.standard, w.env, l); var handed := SetExecutor(a.result, "standard");
      var b := AmOps.SetPower(p.amw0, w.hw, l, handed);
      && n.standard == a.next
      && (a.status == Ok || (a.status == NotSupported && b.status == Ok && n.amw0 == b.next))
    ensures Surfaces(c, n, f) ==> Holds(n.amw0, f, l.Get(f))
  {
    ReplaceFlag(c);
    StandardHalfShows(w.env, p.standard, l, ResetResult());
    var a := St.SetPower(p.standard, w.env, l);
    if a.status != Ok {
      Amw0HalfHolds(w.hw, p.amw0, l, SetExecutor(a.result, "standard"), f);
    }
  }

  /** The three ways a write goes, in terms of the two halves. */
  lemma WriteWays(c: Config, w: Weather, p: World, l: PowerLimits)
    requires WriteIn(c, w, p, l).status == Ok
    ensures var n := WriteIn(c, w, p, l).next;
      if Splits(c, l) then
        var a := St.SetPower(p.standard, w.env, StandardPart(l));
        var b := AmOps.SetPower(p.amw0, w.hw, Amw0Part(l), ResetResult());
        a.status == Ok && b.status == Ok && n == Pair(a.next, b.next)
      else if Takes(c, Standard, PowerRoute) then
        var a := St.SetPower(p.standard, w.env, l);
        var b := AmOps.SetPower(p.amw0, w.hw, l, SetExecutor(a.result, "standard"));
        n.standard == a.next && (a.status == Ok || (a.status == NotSupported && b.status == Ok && n.amw0 == b.next))
      else
        var b := AmOps.SetPower(p.amw0, w.hw, l, ResetResult());
        b.status == Ok && n == Pair(p.standard, b.next)
  {
    PowerWrite(c, St.Table(w.env), AmOps.Table(w.hw), p, l, ResetResult());
  }

  /** A requested field went where it shows. */
  lemma RequestedIsHeld(c: Config, w: Weather, p: World, l: PowerLimits, f: PowerField, n: World)
    requires Configured(c) && Takes(c, Amw0, PowerRoute) && OwnZone(p.standard.power)
    requires WriteIn(c, w, p, l).status == Ok && n == WriteIn(c, w, p, l).next && l.Get(f).present
    ensures Surfaces(c, n, f) ==> Holds(n.amw0, f, l.Get(f))
  {
    WriteWays(c, w, p, l);
    if Splits(c, l) {
      SplitIsHeld(c, w, p, l, f, n);
    } else if Takes(c, Standard, PowerRoute) {
      RoutedIsHeld(c, w, p, l, f, n);
    } else {
      Amw0HalfHolds(w.hw, p.amw0, l, ResetResult(), f);
    }
  }

  ghost predicate NoNewsIn(c: Config, p: World, hw: Am.Hardware, l: PowerLimits)
  {
    forall f: PowerField | l.Get(f).present :: !News(c, p, hw, f)
  }

  ghost predicate NoNewsBeside(c: Config, p: World, hw: Am.Hardware, l: PowerLimits)
  {
    forall f: PowerField | !l.Get(f).present :: !News(c, p, hw, f)
  }

  lemma NewsIsSomewhere(c: Config, p: World, hw: Am.Hardware, l: PowerLimits)
    ensures NoNews(c, p, hw) <==> NoNewsIn(c, p, hw, l) && NoNewsBeside(c, p, hw, l)
  {
  }

  /** A requested field is never news. */
  lemma RequestedIsNoNews(c: Config, w: Weather, p: World, l: PowerLimits, hw: Am.Hardware)
    requires Ready(c, p) && WriteIn(c, w, p, l).status == Ok
    ensures NoNewsIn(c, WriteIn(c, w, p, l).next, hw, l)
  {
    forall f: PowerField | l.Get(f).present
      ensures !News(c, WriteIn(c, w, p, l).next, hw, f)
    {
      RequestedIsHeld(c, w, p, l, f, WriteIn(c, w, p, l).next);
      HeldIsNoNews(c, WriteIn(c, w, p, l).next, hw, f, l.Get(f));
    }
  }

  // ----- the standard half alone

  /** The write of this field goes to the standard half. */
  predicate StandardTakes(c: Config, f: PowerField) { (f == Pl1 || f == Pl2) && Takes(c, Standard, PowerRoute) }

  /** The requested fields the standard half takes, and nothing else new. */
  ghost predicate StandardTook(c: Config, before: PowerLimits, after: PowerLimits, l: PowerLimits)
  {
    forall f: PowerField :: after.Get(f) == if l.Get(f).present && StandardTakes(c, f) then l.Get(f) else before.Get(f)
  }

  lemma TookPart(c: Config, before: PowerLimits, after: PowerLimits, l: PowerLimits)
    requires Takes(c, Standard, PowerRoute) && after == before.Overwrite(StandardPart(l))
    ensures StandardTook(c, before, after, l)
  {
    OverwriteEach(before, StandardPart(l));
  }

  lemma TookAll(c: Config, before: PowerLimits, after: PowerLimits, l: PowerLimits)
    requires Takes(c, Standard, PowerRoute) && after == before.Overwrite(l) && !l.pl4.present && !l.tcc.present
    ensures StandardTook(c, before, after, l)
  {
    OverwriteEach(before, l);
  }

  lemma TookNone(c: Config, before: PowerLimits, l: PowerLimits)
    requires !Takes(c, Standard, PowerRoute) || (!l.pl1.present && !l.pl2.present)
    ensures StandardTook(c, before, before, l)
  {
  }

  /** What the standard half shows after a write. */
  lemma StandardAfter(c: Config, w: Weather, p: World, l: PowerLimits, n: World)
    requires Takes(c, Amw0, PowerRoute) && OwnZone(p.standard.power)
    requires WriteIn(c, w, p, l).status == Ok && n == WriteIn(c, w, p, l).next
    ensures StandardTook(c, Shown(p.standard.power), Shown(n.standard.power), l)
  {
    WriteWays(c, w, p, l);
    if Splits(c, l) {
      StandardHalfShows(w.env, p.standard, StandardPart(l), ResetResult());
      TookPart(c, Shown(p.standard.power), Shown(n.standard.power), l);
    } else if Takes(c, Standard, PowerRoute) {
      StandardRouted(c, w.env, p.standard, l);
    } else {
      TookNone(c, Shown(p.standard.power), l);
    }
  }

  lemma StandardRouted(c: Config, env: St.Env, sys: St.Sys, l: PowerLimits)
    requires Takes(c, Amw0, PowerRoute) && Takes(c, Standard, PowerRoute) && !Splits(c, l) && OwnZone(sys.power)
    requires St.SetPower(sys, env, l).status == Ok || St.SetPower(sys, env, l).status == NotSupported
    ensures StandardTook(c, Shown(sys.power), Shown(St.SetPower(sys, env, l).next.power), l)
  {
    StandardHalfShows(env, sys, l, ResetResult());
    if St.SetPower(sys, env, l).status == Ok {
      TookAll(c, Shown(sys.power), Shown(St.SetPower(sys, env, l).next.power), l);
    } else {
      TookNone(c, Shown(sys.power), l);
    }
  }

  // ----- the store theorem

  /** What the first of two reads may miss so that an answered second one does not give it away: in every field that was
      not requested, the second read shows what the standard half showed at first. */
  ghost predicate NothingMissed(c: Config, w: Weather, p: World, n: World, l: PowerLimits)
  {
    forall f: PowerField | !l.Get(f).present ::
      (if News(c, n, w.again, f) then OptByte(true, n.amw0.ec[PowerAddress(f)]) else View(c, p).Get(f))
        == Shown(p.standard.power).Get(f)
  }

  /** Every requested field goes to the standard half, unless that shows the requested value already. */
  ghost predicate StandardServes(c: Config, shown: PowerLimits, l: PowerLimits)
  {
    forall f: PowerField | l.Get(f).present :: StandardTakes(c, f) || shown.Get(f) == l.Get(f)
  }

  /** When the two reads around a write show one store. If AMW0 answers both, the second may find no new byte in a field
      that was not requested; if only the first, AMW0 may have nothing to add; if only the second, the first may have
      missed nothing that the write did not replace; if neither, the standard half must serve the whole request. */
  ghost predicate Faultless(c: Config, first: Weather, second: Weather, p: World, n: World, l: PowerLimits)
  {
    var before, after := AmOps.Read(p.amw0, first.again).status == Ok, AmOps.Read(n.amw0, second.again).status == Ok;
    if before && after then NoNewsBeside(c, n, second.again, l)
    else if before then NothingShowsThrough(RoutesOf(c.execution).power, Shown(n.standard.power),
                                            n.amw0.shadow.effective.power)
    else if after then NothingMissed(c, second, p, n, l)
    else StandardServes(c, Shown(p.standard.power), l)
  }

  /** A read that AMW0 answers shows the view it leaves behind. */
  lemma FirstRead(c: Config, w: Weather, p: World)
    requires Ready(c, p) && BothAnswer(w, p)
    ensures var r := ReadIn(c, w, p);
      r.status == Ok && Ready(c, r.next) && r.snapshot.effective.power == View(c, r.next)
  {
    ReadShowsView(c, w, p);
    AmTh.ReadIsSound(p.amw0, w.again);
    ReadBecomesShadow(p.amw0, w.again);
  }

  /** Read, write, read: the second read shows the first overwritten by exactly the present fields if and only if the
      two are faultless. The write may be split, direct or a fallback, AMW0 may answer either read or not, and the
      sensors, the driver and the hardware may differ in each of the three calls. */
  lemma OneStore(c: Config, w1: Weather, w2: Weather, w3: Weather, p: World, r: ReadOutcome<St.Sys, Am.State>,
                 l: PowerLimits, n: World)
    requires Ready(c, p) && St.Read(p.standard, w1.env).status == Ok && r == ReadIn(c, w1, p)
    requires WriteIn(c, w2, r.next, l).status == Ok && n == WriteIn(c, w2, r.next, l).next
    requires St.Read(n.standard, w3.env).status == Ok
    ensures r.status == Ok && ReadIn(c, w3, n).status == Ok
    ensures ReadIn(c, w3, n).snapshot.effective.power == r.snapshot.effective.power.Overwrite(l) <==>
      Faultless(c, w1, w3, p, n, l)
  {
    if AmOps.Read(p.amw0, w1.again).status == Ok {
      AfterFullRead(c, w1, w2, w3, p, r, l, n);
    } else if AmOps.Read(n.amw0, w3.again).status == Ok {
      AfterBlindRead(c, w1, w2, w3, p, r, l, n);
    } else {
      TwiceBlind(c, w1, w2, w3, p, r, l, n);
    }
  }

  lemma AfterFullRead(c: Config, w1: Weather, w2: Weather, w3: Weather, p: World, r: ReadOutcome<St.Sys, Am.State>,
                      l: PowerLimits,
                      n: World)
    requires Ready(c, p) && BothAnswer(w1, p) && r == ReadIn(c, w1, p)
    requires WriteIn(c, w2, r.next, l).status == Ok && n == WriteIn(c, w2, r.next, l).next
    requires St.Read(n.standard, w3.env).status == Ok
    ensures r.status == Ok && ReadIn(c, w3, n).status == Ok
    ensures ReadIn(c, w3, n).snapshot.effective.power == r.snapshot.effective.power.Overwrite(l) <==>
      if AmOps.Read(n.amw0, w3.again).status == Ok then NoNewsBeside(c, n, w3.again, l)
      else NothingShowsThrough(RoutesOf(c.execution).power, Shown(n.standard.power), n.amw0.shadow.effective.power)
  {
    FirstRead(c, w1, p);
    WriteOverwritesView(c, w2, r.next, l);
    RequestedIsNoNews(c, w2, r.next, l, w3.again);
    SecondRead(c, w3, n, l);
  }

  lemma SecondRead(c: Config, w: Weather, n: World, l: PowerLimits)
    requires Ready(c, n) && St.Read(n.standard, w.env).status == Ok
    requires NoNewsIn(c, n, w.again, l)
    ensures ReadIn(c, w, n).status == Ok
    ensures ReadIn(c, w, n).snapshot.effective.power == View(c, n) <==>
      if AmOps.Read(n.amw0, w.again).status == Ok then NoNewsBeside(c, n, w.again, l)
      else NothingShowsThrough(RoutesOf(c.execution).power, Shown(n.standard.power), n.amw0.shadow.effective.power)
  {
    ReadShowsView(c, w, n);
    var replace, under := RoutesOf(c.execution).power, Shown(n.standard.power);
    if AmOps.Read(n.amw0, w.again).status == Ok {
      AnsweredReadExactly(c, n, w.again);
      NewsIsSomewhere(c, n, w.again, l);
    } else {
      ThroughIsUnder(replace, under, n.amw0.shadow.effective.power);
    }
  }

  lemma OverwriteEach(a: PowerLimits, l: PowerLimits)
    ensures forall f: PowerField :: a.Overwrite(l).Get(f) == if l.Get(f).present then l.Get(f) else a.Get(f)
  {
  }

  /** The fields of two limit sets compared, given what each of them is. */
  lemma SameAsOverwritten(a: PowerLimits, b: PowerLimits, l: PowerLimits)
    ensures a == b.Overwrite(l) <==> forall f: PowerField :: a.Get(f) == if l.Get(f).present then l.Get(f) else b.Get(f)
  {
    SameLimits(a, b.Overwrite(l));
    OverwriteEach(b, l);
  }

  /** What an answered read shows, field by field. */
  lemma AnsweredRead(c: Config, w: Weather, n: World)
    requires Ready(c, n) && BothAnswer(w, n)
    ensures ReadIn(c, w, n).status == Ok
    ensures forall f: PowerField :: ReadIn(c, w, n).snapshot.effective.power.Get(f) == Sight(c, n, w.again, f)
  {
    ReadShowsView(c, w, n);
    AnsweredReadShows(c, n, w.again);
  }

  /** What a write after a blind read makes of the view. */
  lemma BlindWrite(c: Config, w1: Weather, w2: Weather, p: World, l: PowerLimits, n: World)
    requires Ready(c, p) && St.Read(p.standard, w1.env).status == Ok && AmOps.Read(p.amw0, w1.again).status != Ok
    requires var q := ReadIn(c, w1, p).next; WriteIn(c, w2, q, l).status == Ok && n == WriteIn(c, w2, q, l).next
    ensures Ready(c, n)
    ensures forall f: PowerField :: View(c, n).Get(f) == if l.Get(f).present then l.Get(f) else View(c, p).Get(f)
  {
    BlindRead(c, w1, p);
    WriteOverwritesView(c, w2, ReadIn(c, w1, p).next, l);
    OverwriteEach(View(c, p), l);
  }

  lemma AfterBlindRead(c: Config, w1: Weather, w2: Weather, w3: Weather, p: World, r: ReadOutcome<St.Sys, Am.State>,
                       l: PowerLimits,
                       n: World)
    requires Ready(c, p) && St.Read(p.standard, w1.env).status == Ok && AmOps.Read(p.amw0, w1.again).status != Ok
    requires r == ReadIn(c, w1, p) && WriteIn(c, w2, r.next, l).status == Ok && n == WriteIn(c, w2, r.next, l).next
    requires BothAnswer(w3, n)
    ensures r.status == Ok && ReadIn(c, w3, n).status == Ok
    ensures ReadIn(c, w3, n).snapshot.effective.power == r.snapshot.effective.power.Overwrite(l) <==>
      NothingMissed(c, w3, p, n, l)
  {
    BlindRead(c, w1, p);
    BlindWrite(c, w1, w2, p, l, n);
    RequestedIsNoNews(c, w2, r.next, l, w3.again);
    AnsweredRead(c, w3, n);
    var again := ReadIn(c, w3, n).snapshot.effective.power;
    SameAsOverwritten(again, Shown(p.standard.power), l);
    MissedEach(c, w3, p, n, l, again);
  }

  lemma MissedEach(c: Config, w: Weather, p: World, n: World, l: PowerLimits, again: PowerLimits)
    requires forall f: PowerField :: again.Get(f) == Sight(c, n, w.again, f)
    requires forall f: PowerField :: View(c, n).Get(f) == if l.Get(f).present then l.Get(f) else View(c, p).Get(f)
    requires NoNewsIn(c, n, w.again, l)
    ensures (forall f: PowerField :: again.Get(f) == if l.Get(f).present then l.Get(f)
             else Shown(p.standard.power).Get(f)) <==>
      NothingMissed(c, w, p, n, l)
  {
  }

  lemma TwiceBlind(c: Config, w1: Weather, w2: Weather, w3: Weather, p: World, r: ReadOutcome<St.Sys, Am.State>,
                   l: PowerLimits,
                   n: World)
    requires Ready(c, p) && St.Read(p.standard, w1.env).status == Ok && AmOps.Read(p.amw0, w1.again).status != Ok
    requires r == ReadIn(c, w1, p) && WriteIn(c, w2, r.next, l).status == Ok && n == WriteIn(c, w2, r.next, l).next
    requires St.Read(n.standard, w3.env).status == Ok && AmOps.Read(n.amw0, w3.again).status != Ok
    ensures r.status == Ok && ReadIn(c, w3, n).status == Ok
    ensures ReadIn(c, w3, n).snapshot.effective.power == r.snapshot.effective.power.Overwrite(l) <==>
      StandardServes(c, Shown(p.standard.power), l)
  {
    BlindRead(c, w1, p);
    ReadShowsView(c, w1, p);
    BlindWrite(c, w1, w2, p, l, n);
    BlindRead(c, w3, n);
    StandardAfter(c, w2, r.next, l, n);
    ServesEach(c, Shown(p.standard.power), Shown(n.standard.power), l);
  }

  lemma ServesEach(c: Config, before: PowerLimits, after: PowerLimits, l: PowerLimits)
    requires StandardTook(c, before, after, l)
    ensures after == before.Overwrite(l) <==> StandardServes(c, before, l)
  {
    SameAsOverwritten(after, before, l);
  }

  /** A read without an answer from AMW0 shows the standard half and changes nothing of what the pair holds. */
  lemma BlindRead(c: Config, w: Weather, p: World)
    requires Ready(c, p) && St.Read(p.standard, w.env).status == Ok && AmOps.Read(p.amw0, w.again).status != Ok
    ensures var r := ReadIn(c, w, p);
      && r.status == Ok && r.snapshot.effective.power == Shown(p.standard.power)
      && Ready(c, r.next) && View(c, r.next) == View(c, p)
  {
    ReadShowsView(c, w, p);
    AmTh.ReadIsSound(p.amw0, w.again);
    UnansweredKeepsShadow(p.amw0, w.again);
  }

  // ----- the failing families

  lemma NoByteNoAnswer(t: Am.State, hw: Am.Hardware)
    requires !t.dryRun && forall addr: u16 :: !hw.readable(addr)
    ensures AmOps.Read(t, hw).status == NotFound
  {
    assert forall addr: u16 :: !Am.Live(t, hw, addr);
    assert !AmOps.AnyLive(t, hw);
  }

  /** The failing family: AMW0 holds a PL4, and not one EC byte can be read. */
  lemma UnansweredReadDropsPl4(c: Config, w: Weather, p: World)
    requires Ready(c, p) && St.Read(p.standard, w.env).status == Ok
    requires !p.amw0.dryRun && (forall addr: u16 :: !w.again.readable(addr))
    requires p.amw0.shadow.effective.power.pl4.present
    ensures ReadIn(c, w, p).status == Ok && View(c, p).pl4.present &&
      !ReadIn(c, w, p).snapshot.effective.power.pl4.present
  {
    NoByteNoAnswer(p.amw0, w.again);
    ReadShowsView(c, w, p);
    ShownIsStandard(p.standard.power);
  }

  lemma ReadShowsPl4(c: Config, w: Weather, p: World)
    requires Ready(c, p) && BothAnswer(w, p)
    ensures var over := AmOps.ReadField(p.amw0, w.again, Pl4, p.amw0.shadow.effective.power.pl4);
      var shown := ReadIn(c, w, p).snapshot.effective.power.pl4;
      if over.present then shown == over else !shown.present
  {
    ReadShowsView(c, w, p);
    ReadEach(p.amw0, w.again);
    ShownIsStandard(p.standard.power);
  }

  lemma UnreadPl4IsHidden(c: Config, w: Weather, p: World)
    requires Ready(c, p) && BothAnswer(w, p) && !w.again.readable(PL4) && !p.amw0.shadow.effective.power.pl4.present
    ensures !ReadIn(c, w, p).snapshot.effective.power.pl4.present
  {
    ReadShowsPl4(c, w, p);
  }

  lemma ReadPl4IsShown(c: Config, w: Weather, p: World)
    requires Ready(c, p) && BothAnswer(w, p) && AmOps.FieldLive(p.amw0, w.again, Pl4)
    ensures ReadIn(c, w, p).snapshot.effective.power.pl4 == OptByte(true, p.amw0.ec[PL4])
  {
    ReadShowsPl4(c, w, p);
  }

  lemma StaysReady(c: Config, w1: Weather, w2: Weather, p: World, l: PowerLimits)
    requires Ready(c, p) && BothAnswer(w1, p) && WriteIn(c, w2, ReadIn(c, w1, p).next, l).status == Ok
    ensures Ready(c, WriteIn(c, w2, ReadIn(c, w1, p).next, l).next)
  {
    FirstRead(c, w1, p);
    WriteOverwritesView(c, w2, ReadIn(c, w1, p).next, l);
  }

  /** AMW0's PL4 could not be read at first and nothing was known of it; the second read can, and shows a PL4 that the
      first did not and nobody asked for. */
  lemma NewlyReadPl4Appears(c: Config, w1: Weather, w2: Weather, w3: Weather, p: World,
                            r: ReadOutcome<St.Sys, Am.State>,
                            l: PowerLimits, n: World)
    requires Ready(c, p) && BothAnswer(w1, p) && r == ReadIn(c, w1, p)
    requires !w1.again.readable(PL4) && !p.amw0.shadow.effective.power.pl4.present && !l.pl4.present
    requires WriteIn(c, w2, r.next, l).status == Ok && n == WriteIn(c, w2, r.next, l).next
    requires BothAnswer(w3, n) && AmOps.FieldLive(n.amw0, w3.again, Pl4)
    ensures !r.snapshot.effective.power.Overwrite(l).pl4.present
    ensures ReadIn(c, w3, n).snapshot.effective.power.pl4 == OptByte(true, n.amw0.ec[PL4])
  {
    UnreadPl4IsHidden(c, w1, p);
    StaysReady(c, w1, w2, p, l);
    ReadPl4IsShown(c, w3, n);
  }
}
