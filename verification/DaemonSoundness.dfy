// What the daemon publishes is explained and true in every reachable state, over any backend whose own reads are.
module DaemonSoundness {
  import opened Types
  import opened Attributions
  import opened Backends
  import opened Transactions

  /** What a backend promises about one read: the context stays in order, and a successful read is sound and true of
      the context it leaves. */
  ghost predicate GoodRead<S>(b: Ops<S>, order: S -> bool, truth: (Snapshot, S) -> bool, s: S, old_: Snapshot,
                              r: Result)
  {
    var a := b.read(s, old_, r);
    order(a.next) && (a.status == Ok ==> Sound(a.snapshot) && truth(a.snapshot, a.next))
  }

  ghost predicate GoodApply<S>(b: Ops<S>, order: S -> bool, s: S, op: Operation, r: Result)
  {
    order(b.apply(s, op, r).next)
  }

  ghost predicate Good<S(!new)>(b: Ops<S>, order: S -> bool, truth: (Snapshot, S) -> bool)
  {
    && NameStatus(b.name) == Ok
    && (forall s: S, old_: Snapshot, r: Result | order(s) :: GoodRead(b, order, truth, s, old_, r))
    && (forall s: S, op: Operation, r: Result | order(s) :: GoodApply(b, order, s, op, r))
  }

  /** The values a mark speaks about. */
  predicate SamePublished(a: Snapshot, b: Snapshot)
  {
    a.effective == b.effective && a.meta == b.meta && a.thermal == b.thermal
  }

  ghost predicate AboutPublished<S(!new)>(truth: (Snapshot, S) -> bool)
  {
    forall a: Snapshot, b: Snapshot, s: S | SamePublished(a, b) :: truth(a, s) == truth(b, s)
  }

  ghost predicate InOrder<S>(d: Daemon<S>, order: S -> bool)
  {
    order(d.ctx) && Sound(d.cache)
  }

  /** Live marks are true of the hardware now, or there are none. */
  ghost predicate Current<S>(d: Daemon<S>, truth: (Snapshot, S) -> bool)
  {
    OnlyCache(d.cache.meta) || truth(d.cache, d.ctx)
  }

  lemma RefreshSound<S(!new)>(b: Ops<S>, order: S -> bool, truth: (Snapshot, S) -> bool, d: Daemon<S>, ctx: S,
                              cache: Snapshot)
    requires Good(b, order, truth) && AboutPublished(truth)
    requires order(ctx) && Sound(cache)
    ensures var f := Refresh(b, ctx, cache); var n := d.(ctx := f.ctx, cache := f.cache);
      InOrder(n, order) && Current(n, truth) && (f.status != Ok ==> OnlyCache(f.cache.meta))
  {
    assert GoodRead(b, order, truth, ctx, EmptySnapshot(), ResetResult());
    var r := b.read(ctx, EmptySnapshot(), ResetResult());
    if r.status == Ok {
      var m := Merged(cache, r.snapshot, b.name, r.result.hardwareWrite);
      assert SamePublished(m, r.snapshot);
      assert truth(m, r.next);
    } else {
      MarkCachedSound(cache);
    }
  }

  lemma BackendCallInOrder<S(!new)>(b: Ops<S>, order: S -> bool, truth: (Snapshot, S) -> bool, ctx: S, op: Operation)
    requires Good(b, order, truth) && order(ctx)
    ensures order(Apply(b, ctx, op).next)
  {
    var first := b.apply(ctx, op, ResetResult());
    assert GoodApply(b, order, ctx, op, ResetResult());
    if op.ApplyProfile? && ModeFromName(op.name).Some? {
      assert GoodApply(b, order, first.next, ApplyMode(ModeFromName(op.name).value), first.result);
    }
  }

  /** The daemon's own records are not part of what it publishes about the hardware. */
  lemma RecordsAside<S(!new)>(order: S -> bool, truth: (Snapshot, S) -> bool, n: Daemon<S>, m: Daemon<S>)
    requires AboutPublished(truth) && n.ctx == m.ctx && SamePublished(n.cache, m.cache)
    ensures InOrder(n, order) ==> InOrder(m, order)
    ensures Current(n, truth) ==> Current(m, truth)
  {
  }

  lemma ReachedSound<S(!new)>(b: Ops<S>, order: S -> bool, truth: (Snapshot, S) -> bool, d: Daemon<S>, r: Request)
    requires Good(b, order, truth) && AboutPublished(truth) && InOrder(d, order)
    requires Reaches(d.caps, Stage(d.cache.requested, r))
    ensures var n := Execute(b, d, r).0; InOrder(n, order) && Current(n, truth)
  {
    var staged := Stage(d.cache.requested, r);
    BackendCallInOrder(b, order, truth, d.ctx, staged.op);
    var a := Apply(b, d.ctx, staged.op);
    if a.status == Ok {
      AcceptedSound(b, order, truth, d, r, staged.target, a);
    } else {
      RefusedSound(b, order, truth, d, r, staged.target, a);
    }
  }

  lemma RefusedSound<S(!new)>(b: Ops<S>, order: S -> bool, truth: (Snapshot, S) -> bool, d: Daemon<S>, r: Request,
                              target: Target, a: Reply<S>)
    requires Good(b, order, truth) && AboutPublished(truth) && InOrder(d, order) && order(a.next)
    ensures var n := Refused(b, d, r, target, a).0; InOrder(n, order) && Current(n, truth)
  {
    var stage := FailureStage(a.result, a.status);
    RefreshSound(b, order, truth, d, a.next, d.cache.(transaction := FailedAt(r, stage, Some(target), a.status),
                                                      lastApply := Attempt(stage, target, a.result, a.status)));
  }

  lemma AcceptedSound<S(!new)>(b: Ops<S>, order: S -> bool, truth: (Snapshot, S) -> bool, d: Daemon<S>, r: Request,
                               target: Target, a: Reply<S>)
    requires Good(b, order, truth) && AboutPublished(truth) && InOrder(d, order) && order(a.next)
    ensures var n := Accepted(b, d, r, target, a).0; InOrder(n, order) && Current(n, truth)
  {
    var before := InFlight(d.cache, r, target, a.result);
    RefreshSound(b, order, truth, d, a.next, before);
    var f := Refresh(b, a.next, before);
    RecordsAside(order, truth, d.(ctx := f.ctx, cache := f.cache), Accepted(b, d, r, target, a).0);
  }

  /** Every call keeps the cache sound. After one that reaches the backend, every live mark is true of the hardware, and
      if that call's refresh failed there is no live mark at all. */
  lemma ExecuteSound<S(!new)>(b: Ops<S>, order: S -> bool, truth: (Snapshot, S) -> bool, d: Daemon<S>, r: Request)
    requires Good(b, order, truth) && AboutPublished(truth) && InOrder(d, order)
    ensures var n := Execute(b, d, r).0;
      && InOrder(n, order)
      && (Reaches(d.caps, Stage(d.cache.requested, r)) ==> Current(n, truth))
      && (!Reaches(d.caps, Stage(d.cache.requested, r)) && Current(d, truth) ==> Current(n, truth))
  {
    if Reaches(d.caps, Stage(d.cache.requested, r)) {
      ReachedSound(b, order, truth, d, r);
    } else {
      ExecuteContract(b, d, r);
      RecordsAside(order, truth, d, Execute(b, d, r).0);
    }
  }

  // ----- runs in which the hardware may change by itself between calls

  datatype Happening<!S> = Called(backend: Ops<S>, request: Request) | Drifted(ctx: S)

  function Life<S>(d: Daemon<S>, events: seq<Happening<S>>): Daemon<S>
  {
    if events == [] then d
    else
      var before, last := Life(d, events[..|events| - 1]), events[|events| - 1];
      match last
      case Called(backend, request) => Execute(backend, before, request).0
      case Drifted(ctx) => before.(ctx := ctx)
  }

  ghost predicate Allowed<S(!new)>(events: seq<Happening<S>>, order: S -> bool, truth: (Snapshot, S) -> bool)
  {
    forall i | 0 <= i < |events| ::
      (events[i].Called? ==> Good(events[i].backend, order, truth)) && (events[i].Drifted? ==> order(events[i].ctx))
  }

  /** Over whole lives: the cache is always sound, and whenever the last event was a call that reached the backend,
      its live marks are true. */
  lemma {:induction false} AlwaysSound<S(!new)>(d: Daemon<S>, events: seq<Happening<S>>, order: S -> bool,
                                                truth: (Snapshot, S) -> bool)
    requires Allowed(events, order, truth) && AboutPublished(truth) && InOrder(d, order)
    ensures InOrder(Life(d, events), order)
    ensures (forall i | 0 <= i < |events| :: events[i].Called?) && Current(d, truth) ==> Current(Life(d, events), truth)
    ensures events != [] && events[|events| - 1].Called?
      && Reaches(d.caps, Stage(Life(d, events[..|events| - 1]).cache.requested, events[|events| - 1].request))
      ==> Current(Life(d, events), truth)
    ensures Life(d, events).caps == d.caps
  {
    if events != [] {
      var front, last := events[..|events| - 1], events[|events| - 1];
      assert forall i | 0 <= i < |front| :: front[i] == events[i];
      AlwaysSound(d, front, order, truth);
      if last.Called? {
        ExecuteSound(last.backend, order, truth, Life(d, front), last.request);
        ExecuteContract(last.backend, Life(d, front), last.request);
      }
    }
  }

  /** The cleared cache a manager starts from is sound, so its first refresh already publishes sound state. */
  lemma FirstRefreshSound<S(!new)>(b: Ops<S>, order: S -> bool, truth: (Snapshot, S) -> bool, ctx: S,
                                   caps: Capabilities)
    requires Good(b, order, truth) && AboutPublished(truth) && order(ctx)
    ensures var f := Refresh(b, ctx, EmptySnapshot());
      var n := Daemon(f.ctx, caps, f.cache);
      InOrder(n, order) && Current(n, truth)
  {
    EmptyIsSound();
    RefreshSound(b, order, truth, Daemon(ctx, caps, EmptySnapshot()), ctx, EmptySnapshot());
  }

  lemma EmptyIsSound()
    ensures Sound(EmptySnapshot())
  {
    FinalizedSummaries(EmptyMeta());
    assert AllEmpty(Sources(EmptyMeta())) && AllEmpty(Freshnesses(EmptyMeta()));
  }
}
