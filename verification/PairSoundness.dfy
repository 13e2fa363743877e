// Attribution over the converged pair: what two backends promise about their own reads carries over to the routed,
// falling-back and overlaid read.
module PairSoundness {
  import opened Types
  import opened Attributions
  import opened Backends
  import opened Overlays
  import opened Converged
  import opened Transactions
  import opened DaemonSoundness

  /** The converged backend as an operation table; it is bound under the name of the selected backend. */
  function Table<S, T>(c: Config, std: Ops<S>, amw: Ops<T>, again: Ops<T>): Ops<Pair<S, T>>
  {
    Ops(c.selected,
        (p: Pair<S, T>, s: Snapshot, r: Result) =>
          var o := ReadState(c, std, amw, again, p, s, r);
          ReadReply(o.next, o.status, o.snapshot, o.result),
        (p: Pair<S, T>, op: Operation, r: Result) =>
          var o := ApplyAny(c, std, amw, p, op, r);
          Reply(o.next, o.status, o.result))
  }

  /** How the truth about the pair follows from the truth about either half. */
  ghost predicate Combines<S(!new), T(!new)>(truthS: (Snapshot, S) -> bool, truthT: (Snapshot, T) -> bool,
                                             truth: (Snapshot, Pair<S, T>) -> bool)
  {
    && AboutPublished(truth)
    && (forall s: Snapshot, p: Pair<S, T> | truthS(s, p.standard) :: truth(s, p))
    && (forall s: Snapshot, p: Pair<S, T> | truthT(s, p.amw0) :: truth(s, p))
    && (forall a: Snapshot, t: T | truthT(a, t) :: NamesPresent(a))
    && (forall s: Snapshot, a: Snapshot, r: Routes, p: Pair<S, T> |
          Explained(s) && WellFormed(a) && truth(s, p) && truthT(a, p.amw0) :: truth(Overlay(s, a, r), p))
  }

  predicate NamesPresent(a: Snapshot) { a.effective.profile != "" && a.effective.fanTable != "" }

  /** An AMW0 read does not disturb what is already known to be true. */
  ghost predicate Steady<S(!new), T(!new)>(amw: Ops<T>, order: T -> bool, truth: (Snapshot, Pair<S, T>) -> bool)
  {
    forall s: Snapshot, p: Pair<S, T>, old_: Snapshot, r: Result | order(p.amw0) && truth(s, p) ::
      SteadyRead(amw, truth, s, p, old_, r)
  }

  ghost predicate SteadyRead<S, T>(amw: Ops<T>, truth: (Snapshot, Pair<S, T>) -> bool, s: Snapshot, p: Pair<S, T>,
                                   old_: Snapshot, r: Result)
  {
    truth(s, p.(amw0 := amw.read(p.amw0, old_, r).next))
  }

  ghost predicate GoodOutcome<S, T>(o: ReadOutcome<S, T>, orderS: S -> bool, orderT: T -> bool,
                                    truth: (Snapshot, Pair<S, T>) -> bool)
  {
    && orderS(o.next.standard) && orderT(o.next.amw0)
    && (o.status == Ok ==> Sound(o.snapshot) && truth(o.snapshot, o.next))
  }

  lemma SideReadGood<S(!new), T(!new)>(std: Ops<S>, amw: Ops<T>, orderS: S -> bool, orderT: T -> bool,
                                       truthS: (Snapshot, S) -> bool, truthT: (Snapshot, T) -> bool,
                                       truth: (Snapshot, Pair<S, T>) -> bool,
                                       p: Pair<S, T>, side: Side, s: Snapshot, incoming: Result)
    requires Good(std, orderS, truthS) && Good(amw, orderT, truthT) && Combines(truthS, truthT, truth)
    requires orderS(p.standard) && orderT(p.amw0)
    ensures GoodOutcome(ReadSide(std, amw, p, side, s, incoming), orderS, orderT, truth)
  {
    assert GoodRead(std, orderS, truthS, p.standard, s, incoming);
    assert GoodRead(amw, orderT, truthT, p.amw0, s, incoming);
  }

  lemma RoutedReadGood<S(!new), T(!new)>(c: Config, std: Ops<S>, amw: Ops<T>, orderS: S -> bool, orderT: T -> bool,
                                         truthS: (Snapshot, S) -> bool, truthT: (Snapshot, T) -> bool,
                                         truth: (Snapshot, Pair<S, T>) -> bool,
                                         p: Pair<S, T>, primary: Side, s: Snapshot, incoming: Result)
    requires Good(std, orderS, truthS) && Good(amw, orderT, truthT) && Combines(truthS, truthT, truth)
    requires orderS(p.standard) && orderT(p.amw0)
    ensures GoodOutcome(ReadRouted(c, std, amw, p, primary, s, incoming).0, orderS, orderT, truth)
  {
    SideReadGood(std, amw, orderS, orderT, truthS, truthT, truth, p, primary, s, incoming);
    var first := ReadSide(std, amw, p, primary, s, incoming);
    var secondary := Secondary(c, ReadRoute, primary);
    if FallsBack(first.status) && secondary.Some? {
      SideReadGood(std, amw, orderS, orderT, truthS, truthT, truth, first.next, secondary.value, first.snapshot,
                   first.result);
    }
  }

  lemma OverlaidReadGood<S(!new), T(!new)>(c: Config, again: Ops<T>, orderS: S -> bool, orderT: T -> bool,
                                           truthS: (Snapshot, S) -> bool, truthT: (Snapshot, T) -> bool,
                                           truth: (Snapshot, Pair<S, T>) -> bool, read: ReadOutcome<S, T>)
    requires Good(again, orderT, truthT) && Combines(truthS, truthT, truth) && Steady(again, orderT, truth)
    requires read.status == Ok && GoodOutcome(read, orderS, orderT, truth)
    ensures GoodOutcome(WithOverlay(c, again, read), orderS, orderT, truth)
  {
    var r := again.read(read.next.amw0, EmptySnapshot(), ResetResult());
    assert GoodRead(again, orderT, truthT, read.next.amw0, EmptySnapshot(), ResetResult());
    assert SteadyRead(again, truth, read.snapshot, read.next, EmptySnapshot(), ResetResult());
    if r.status == Ok {
      assert truthT(r.snapshot, r.next) && NamesPresent(r.snapshot);
      OverlayIsSound(read.snapshot, r.snapshot, RoutesOf(c.execution));
    }
  }

  lemma PairReadGood<S(!new), T(!new)>(c: Config, std: Ops<S>, amw: Ops<T>, again: Ops<T>, orderS: S -> bool,
                                       orderT: T -> bool,
                                       truthS: (Snapshot, S) -> bool, truthT: (Snapshot, T) -> bool,
                                       truth: (Snapshot, Pair<S, T>) -> bool,
                                       p: Pair<S, T>, s: Snapshot, incoming: Result)
    requires Good(std, orderS, truthS) && Good(amw, orderT, truthT) && Good(again, orderT, truthT)
    requires Combines(truthS, truthT, truth) && Steady(again, orderT, truth)
    requires orderS(p.standard) && orderT(p.amw0)
    ensures GoodOutcome(ReadState(c, std, amw, again, p, s, incoming), orderS, orderT, truth)
  {
    var primary := Primary(c, ReadRoute);
    if primary.Some? {
      RoutedReadGood(c, std, amw, orderS, orderT, truthS, truthT, truth, p, primary.value, s, incoming);
      var (read, side) := ReadRouted(c, std, amw, p, primary.value, s, incoming);
      if read.status == Ok {
        if primary.value != Amw0 && c.amw0Available {
          OverlaidReadGood(c, again, orderS, orderT, truthS, truthT, truth, read);
        }
        var laid := if primary.value != Amw0 && c.amw0Available then WithOverlay(c, again, read) else read;
        assert SamePublished(Stamped(c, laid.snapshot, side), laid.snapshot);
      }
    }
  }

  lemma SideCallInOrder<S(!new), T(!new)>(std: Ops<S>, amw: Ops<T>, orderS: S -> bool, orderT: T -> bool,
                                          truthS: (Snapshot, S) -> bool, truthT: (Snapshot, T) -> bool,
                                          p: Pair<S, T>, side: Side, op: Operation, incoming: Result)
    requires Good(std, orderS, truthS) && Good(amw, orderT, truthT) && orderS(p.standard) && orderT(p.amw0)
    ensures var n := CallSide(std, amw, p, side, op, incoming).next; orderS(n.standard) && orderT(n.amw0)
  {
    assert GoodApply(std, orderS, p.standard, op, incoming);
    assert GoodApply(amw, orderT, p.amw0, op, incoming);
  }

  lemma PairCallInOrder<S(!new), T(!new)>(c: Config, std: Ops<S>, amw: Ops<T>, orderS: S -> bool, orderT: T -> bool,
                                          truthS: (Snapshot, S) -> bool, truthT: (Snapshot, T) -> bool,
                                          p: Pair<S, T>, op: Operation, incoming: Result)
    requires Good(std, orderS, truthS) && Good(amw, orderT, truthT) && orderS(p.standard) && orderT(p.amw0)
    ensures var n := ApplyAny(c, std, amw, p, op, incoming).next; orderS(n.standard) && orderT(n.amw0)
  {
    if op.ApplyPower? && op.limits.AnyPresent() && Splits(c, op.limits) {
      var first := CallSide(std, amw, p, Standard, ApplyPower(StandardPart(op.limits)), ResetResult());
      SideCallInOrder(std, amw, orderS, orderT, truthS, truthT, p, Standard, ApplyPower(StandardPart(op.limits)),
                      ResetResult());
      SideCallInOrder(std, amw, orderS, orderT, truthS, truthT, first.next, Amw0, ApplyPower(Amw0Part(op.limits)),
                      ResetResult());
    } else if Primary(c, RouteOf(op)).Some? {
      var primary := Primary(c, RouteOf(op)).value;
      var first := CallSide(std, amw, p, primary, op, incoming);
      SideCallInOrder(std, amw, orderS, orderT, truthS, truthT, p, primary, op, incoming);
      if Secondary(c, RouteOf(op), primary).Some? {
        SideCallInOrder(std, amw, orderS, orderT, truthS, truthT, first.next, Secondary(c, RouteOf(op), primary).value,
                        op, first.result);
      }
    }
  }

  /** Two good backends make a good pair. */
  lemma PairIsGood<S(!new), T(!new)>(c: Config, std: Ops<S>, amw: Ops<T>, again: Ops<T>, orderS: S -> bool,
                                     orderT: T -> bool,
                                     truthS: (Snapshot, S) -> bool, truthT: (Snapshot, T) -> bool,
                                     order: Pair<S, T> -> bool, truth: (Snapshot, Pair<S, T>) -> bool)
    requires Configured(c)
    requires Good(std, orderS, truthS) && Good(amw, orderT, truthT) && Good(again, orderT, truthT)
    requires Combines(truthS, truthT, truth) && Steady(again, orderT, truth)
    requires forall p: Pair<S, T> :: order(p) <==> orderS(p.standard) && orderT(p.amw0)
    ensures Good(Table(c, std, amw, again), order, truth)
  {
    var b := Table(c, std, amw, again);
    assert |"standard"| == 8 && |"amw0"| == 4;
    forall p: Pair<S, T>, old_: Snapshot, r: Result | order(p)
      ensures GoodRead(b, order, truth, p, old_, r)
    {
      PairReadGood(c, std, amw, again, orderS, orderT, truthS, truthT, truth, p, old_, r);
    }
    forall p: Pair<S, T>, op: Operation, r: Result | order(p)
      ensures GoodApply(b, order, p, op, r)
    {
      PairCallInOrder(c, std, amw, orderS, orderT, truthS, truthT, p, op, r);
    }
  }
}
