// Why any two stores behind the converged routes act as one: the argument for the power split, without
// looking into either backend.
module PowerPairs {
  import opened Types
  import opened Attributions
  import opened Backends
  import opened Overlays
  import opened Converged

  /** The store underneath: it takes PL1 and PL2 only, a success overwrites what it shows, and a request is
      unsupported only for a field it does not take. */
  ghost predicate UnderStep<S>(std: Ops<S>, shown: S -> PowerLimits, ready: S -> bool, s: S, l: PowerLimits, r: Result)
  {
    var a := std.apply(s, ApplyPower(l), r);
    && ready(a.next) && shown(s).pl4 == ABSENT && shown(s).tcc == ABSENT
    && (a.status == Ok ==> shown(a.next) == shown(s).Overwrite(l) && !l.pl4.present && !l.tcc.present)
    && (a.status == NotSupported ==> shown(a.next) == shown(s) && (l.pl4.present || l.tcc.present))
  }

  ghost predicate UnderStore<S(!new)>(std: Ops<S>, shown: S -> PowerLimits, ready: S -> bool)
  {
    forall s: S, l: PowerLimits, r: Result | ready(s) :: UnderStep(std, shown, ready, s, l, r)
  }

  /** The store laid over it: a success overwrites what it holds. */
  ghost predicate OverStep<T>(amw: Ops<T>, held: T -> PowerLimits, ready: T -> bool, t: T, l: PowerLimits, r: Result)
  {
    var a := amw.apply(t, ApplyPower(l), r);
    a.status == Ok ==> ready(a.next) && held(a.next) == held(t).Overwrite(l)
  }

  ghost predicate OverStore<T(!new)>(amw: Ops<T>, held: T -> PowerLimits, ready: T -> bool)
  {
    forall t: T, l: PowerLimits, r: Result | ready(t) :: OverStep(amw, held, ready, t, l, r)
  }

  lemma ThroughOver(under: PowerLimits, over: PowerLimits, l: PowerLimits)
    ensures ThroughLimits(true, under, over.Overwrite(l)) == ThroughLimits(true, under, over).Overwrite(l)
  {
  }

  lemma ThroughUnder(under: PowerLimits, over: PowerLimits, l: PowerLimits)
    requires under.pl4 == ABSENT && under.tcc == ABSENT
    ensures ThroughLimits(false, under.Overwrite(StandardPart(l)), over.Overwrite(Amw0Part(l)))
      == ThroughLimits(false, under, over).Overwrite(l)
  {
  }

  lemma ReplaceFlag(c: Config)
    requires Configured(c) && Takes(c, Amw0, PowerRoute)
    ensures RoutesOf(c.execution).power <==> !Takes(c, Standard, PowerRoute)
  {
    assert |"standard"| == 8 && |"amw0"| == 4;
  }

  /** Any successful power write overwrites the overlay of the two stores by exactly the present fields. */
  lemma PairOverwrites<S(!new), T(!new)>(c: Config, std: Ops<S>, amw: Ops<T>,
                                         shown: S -> PowerLimits, readyS: S -> bool, held: T -> PowerLimits,
                                             readyT: T -> bool,
                                         p: Pair<S, T>, l: PowerLimits)
    requires Configured(c) && Takes(c, Amw0, PowerRoute)
    requires UnderStore(std, shown, readyS) && OverStore(amw, held, readyT)
    requires readyS(p.standard) && readyT(p.amw0)
    requires ApplyAny(c, std, amw, p, ApplyPower(l), ResetResult()).status == Ok
    ensures var n := ApplyAny(c, std, amw, p, ApplyPower(l), ResetResult()).next;
      var replace := RoutesOf(c.execution).power;
      && readyS(n.standard) && readyT(n.amw0)
      && ThroughLimits(replace, shown(n.standard), held(n.amw0))
           == ThroughLimits(replace, shown(p.standard), held(p.amw0)).Overwrite(l)
  {
    PowerWrite(c, std, amw, p, l, ResetResult());
    ReplaceFlag(c);
    assert UnderStep(std, shown, readyS, p.standard, l, ResetResult());
    assert OverStep(amw, held, readyT, p.amw0, l, ResetResult());
    var under, over := shown(p.standard), held(p.amw0);
    ThroughUnder(under, over, l);
    ThroughOver(under, over, l);
    if Splits(c, l) {
      assert UnderStep(std, shown, readyS, p.standard, StandardPart(l), ResetResult());
      assert OverStep(amw, held, readyT, p.amw0, Amw0Part(l), ResetResult());
    } else if Takes(c, Standard, PowerRoute) {
      var handed := SetExecutor(std.apply(p.standard, ApplyPower(l), ResetResult()).result, "standard");
      assert OverStep(amw, held, readyT, p.amw0, l, handed);
      assert under.Overwrite(StandardPart(l)) == under || (l.pl1.present || l.pl2.present);
    }
  }

  /** What a converged read shows: both snapshots' limits through the overlay, or the first alone when the
      overlay read fails. */
  lemma ReadThrough<S, T>(c: Config, std: Ops<S>, amw: Ops<T>, again: Ops<T>, p: Pair<S, T>)
    requires Takes(c, Standard, ReadRoute) && c.amw0Available
    requires std.read(p.standard, EmptySnapshot(), ResetResult()).status == Ok
    requires PowerCoherent(again.read(p.amw0, EmptySnapshot(), ResetResult()).snapshot.effective)
    ensures var a := std.read(p.standard, EmptySnapshot(), ResetResult());
      var b := again.read(p.amw0, EmptySnapshot(), ResetResult());
      var r := ReadState(c, std, amw, again, p, EmptySnapshot(), ResetResult());
      && r.status == Ok && r.next == Pair(a.next, b.next)
      && r.snapshot.effective.power ==
           if b.status == Ok then ThroughLimits(RoutesOf(c.execution).power, a.snapshot.effective.power,
                                                b.snapshot.effective.power)
           else a.snapshot.effective.power
  {
    ReadBoth(c, std, amw, again, p, EmptySnapshot(), ResetResult());
    OverlayLimits(std.read(p.standard, EmptySnapshot(), ResetResult()).snapshot,
                  again.read(p.amw0, EmptySnapshot(), ResetResult()).snapshot, RoutesOf(c.execution));
  }
}
