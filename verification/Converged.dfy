// The converged backend: routes every operation to the standard or the AMW0 backend, splits a power
// write over both, and reads one state out of two (src/backends/converged/backend.c).
module Converged {
  import opened Types
  import opened Backends
  import opened Overlays

  datatype Side = Standard | Amw0

  datatype Route = ReadRoute | ProfileRoute | ModeRoute | PowerRoute | FanTableRoute | FanBoostRoute

  datatype Config = Config(
    standardAvailable: bool,
    amw0Available: bool,
    standardCaps: Capabilities,
    amw0Caps: Capabilities,
    execution: Execution,
    selected: Text32,
    reason: Text192)

  datatype Pair<S, T> = Pair(standard: S, amw0: T)

  // ----- routes

  predicate CapableOf(c: Capabilities, route: Route)
  {
    match route
    case ReadRoute => c.canRead
    case ProfileRoute => c.canProfile
    case ModeRoute => c.canMode
    case PowerRoute => c.canPower
    case FanTableRoute => c.canFanTable
    case FanBoostRoute => c.canFanBoost
  }

  predicate Takes(c: Config, side: Side, route: Route)
  {
    if side.Standard? then c.standardAvailable && CapableOf(c.standardCaps, route)
    else c.amw0Available && CapableOf(c.amw0Caps, route)
  }

  function Primary(c: Config, route: Route): Option<Side>
  {
    if Takes(c, Standard, route) then Some(Standard)
    else if Takes(c, Amw0, route) then Some(Amw0)
    else None
  }

  function Secondary(c: Config, route: Route, primary: Side): Option<Side>
  {
    if primary != Standard && Takes(c, Standard, route) then Some(Standard)
    else if primary != Amw0 && Takes(c, Amw0, route) then Some(Amw0)
    else None
  }

  function SideName(side: Side): Text32 { if side.Standard? then "standard" else "amw0" }

  function PrimaryName(c: Config, route: Route): Text32
  {
    match Primary(c, route)
    case None => ""
    case Some(side) => SideName(side)
  }

  /** `build_selection_metadata`, the route table it publishes. */
  function PlannedExecution(c: Config): Execution
  {
    Execution(PrimaryName(c, ReadRoute), PrimaryName(c, ProfileRoute), PrimaryName(c, ModeRoute),
              PrimaryName(c, PowerRoute), PrimaryName(c, FanTableRoute), PrimaryName(c, FanBoostRoute))
  }

  function EntryFor(e: Execution, route: Route): Text32
  {
    match route
    case ReadRoute => e.readState
    case ProfileRoute => e.applyProfile
    case ModeRoute => e.applyMode
    case PowerRoute => e.applyPower
    case FanTableRoute => e.applyFanTable
    case FanBoostRoute => e.applyFanBoost
  }

  /** The configuration an initialization leaves behind. */
  predicate Configured(c: Config)
  {
    && (c.standardAvailable || c.amw0Available)
    && c.selected == (if c.standardAvailable then "standard" else "amw0")
    && c.execution == PlannedExecution(c)
  }

  /** `converged_probe`, the capabilities it reports. */
  function Probed(c: Config): Capabilities
  {
    Capabilities(Primary(c, ReadRoute).Some?, Primary(c, ProfileRoute).Some?, Primary(c, ModeRoute).Some?,
                 Primary(c, PowerRoute).Some?, Primary(c, FanTableRoute).Some?, Primary(c, FanBoostRoute).Some?,
                 c.standardAvailable && c.standardCaps.hasPlatformProfile,
                 c.standardAvailable && c.standardCaps.hasPowercap,
                 c.standardCaps.needsReboot || c.amw0Caps.needsReboot)
  }

  /** Probe, routing and the published route table say the same. */
  lemma RoutingCoherent(c: Config, route: Route)
    requires Configured(c)
    ensures CapableOf(Probed(c), route) <==> Primary(c, route).Some?
    ensures Primary(c, route).Some? <==> EntryFor(c.execution, route) != ""
    ensures forall side | Primary(c, route) == Some(side) ::
      && EntryFor(c.execution, route) == SideName(side) && Takes(c, side, route)
      && Secondary(c, route, side) == (if side == Standard && Takes(c, Amw0, route) then Some(Amw0) else None)
  {
  }

  // ----- calls

  function RouteOf(op: Operation): Route
  {
    match op
    case ApplyProfile(_) => ProfileRoute
    case ApplyMode(_) => ModeRoute
    case ApplyPower(_) => PowerRoute
    case ApplyFanTable(_) => FanTableRoute
    case ApplyFanBoost(_) => FanBoostRoute
  }

  function NoRouteText(op: Operation): string
  {
    match op
    case ApplyProfile(_) => "no converged backend can apply profiles"
    case ApplyMode(_) => "no converged backend can apply modes"
    case ApplyPower(_) => "no converged backend can apply power limits"
    case ApplyFanTable(_) => "no converged backend can apply fan tables"
    case ApplyFanBoost(_) => "no converged backend can apply fan boost"
  }

  function RouteName(route: Route): string
  {
    match route
    case ReadRoute => "read_state"
    case ProfileRoute => "apply_profile"
    case ModeRoute => "apply_mode"
    case PowerRoute => "apply_power_limits"
    case FanTableRoute => "apply_fan_table"
    case FanBoostRoute => "apply_fan_boost"
  }

  /** `set_fallback_detail` */
  function FallbackDetail(r: Result, route: Route, from: Side, to: Option<Side>, reason: Status): Result
  {
    match to
    case Some(side) =>
      SetDetail(r, RouteName(route) + " fell back from " + SideName(from) + " to " + SideName(side) + " after "
                   + StatusText(reason))
    case None =>
      SetDetail(r, RouteName(route) + " stopped at " + SideName(from)
                   + " because no fallback route is available after " + StatusText(reason))
  }

  /** One backend call as it was made and how it ended. */
  datatype Call = Call(side: Side, op: Operation, status: Status)

  datatype Outcome<S, T> = Outcome(next: Pair<S, T>, status: Status, result: Result, calls: seq<Call>)

  function CallSide<S, T>(std: Ops<S>, amw: Ops<T>, p: Pair<S, T>, side: Side, op: Operation,
                          incoming: Result): Outcome<S, T>
  {
    match side
    case Standard =>
      var r := std.apply(p.standard, op, incoming);
      Outcome(p.(standard := r.next), r.status, SetExecutor(r.result, SideName(side)), [Call(side, op, r.status)])
    case Amw0 =>
      var r := amw.apply(p.amw0, op, incoming);
      Outcome(p.(amw0 := r.next), r.status, SetExecutor(r.result, SideName(side)), [Call(side, op, r.status)])
  }

  /** Primary first; its NOT_SUPPORTED, and only that, goes to the other backend. */
  function ApplyRouted<S, T>(c: Config, std: Ops<S>, amw: Ops<T>, p: Pair<S, T>, op: Operation,
                             incoming: Result): Outcome<S, T>
  {
    var route := RouteOf(op);
    match Primary(c, route)
    case None => Outcome(p, NotSupported, SetDetail(ResetResult(), NoRouteText(op)), [])
    case Some(primary) =>
      var first := CallSide(std, amw, p, primary, op, incoming);
      if first.status != NotSupported then first
      else match Secondary(c, route, primary)
        case None => first.(result := FallbackDetail(first.result, route, primary, None, first.status))
        case Some(secondary) =>
          var second := CallSide(std, amw, first.next, secondary, op, first.result);
          second.(calls := first.calls + second.calls,
                  result := if second.result.detail == "" then FallbackDetail(second.result, route, primary,
                                                                              Some(secondary), NotSupported)
                            else second.result)
  }

  // ----- power limits

  function StandardPart(l: PowerLimits): PowerLimits { PowerLimits(l.pl1, l.pl2, ABSENT, ABSENT) }
  function Amw0Part(l: PowerLimits): PowerLimits { PowerLimits(ABSENT, ABSENT, l.pl4, l.tcc) }

  predicate Splits(c: Config, l: PowerLimits)
  {
    && (l.pl1.present || l.pl2.present) && (l.pl4.present || l.tcc.present)
    && Takes(c, Standard, PowerRoute) && Takes(c, Amw0, PowerRoute)
  }

  function StageOrNone(stage: Text96): string { if stage == "" then "none" else stage }

  function Clip(text: string, n: nat): string { text[..Min(|text|, n)] }

  function MixedDetail(r: Result, standard: Result, amw0: Result, suffix: string): Result
  {
    var stages := "standard_stage=" + Clip(StageOrNone(standard.stage), 48) + " amw0_stage=" +
        Clip(StageOrNone(amw0.stage), 48);
    SetDetail(r, if suffix == "" then stages else stages + " reason=" + Clip(suffix, 56))
  }

  function MixedResult(standard: Result, amw0: Result, status: Status): Result
  {
    var r := Result(standard.changed || amw0.changed, standard.hardwareWrite || amw0.hardwareWrite, false,
                    "mixed-power-apply", "mixed", "");
    MixedDetail(r, standard, amw0, if status == Ok then "" else amw0.detail)
  }

  function ApplySplit<S, T>(std: Ops<S>, amw: Ops<T>, p: Pair<S, T>, l: PowerLimits): Outcome<S, T>
  {
    var first := CallSide(std, amw, p, Standard, ApplyPower(StandardPart(l)), ResetResult());
    if first.status != Ok then first
    else
      var second := CallSide(std, amw, first.next, Amw0, ApplyPower(Amw0Part(l)), ResetResult());
      second.(calls := first.calls + second.calls, result := MixedResult(first.result, second.result, second.status))
  }

  function ApplyAny<S, T>(c: Config, std: Ops<S>, amw: Ops<T>, p: Pair<S, T>, op: Operation,
                          incoming: Result): Outcome<S, T>
  {
    match op
    case ApplyPower(l) =>
      if !l.AnyPresent() then
        Outcome(p, InvalidArgument, SetDetail(ResetResult(), "power limit write requires at least one present field"),
                [])
      else if Splits(c, l) then ApplySplit(std, amw, p, l)
      else ApplyRouted(c, std, amw, p, op, incoming)
    case _ => ApplyRouted(c, std, amw, p, op, incoming)
  }

  // ----- reading

  datatype ReadOutcome<S, T> = ReadOutcome(next: Pair<S, T>, status: Status, snapshot: Snapshot, result: Result)

  function ReadSide<S, T>(std: Ops<S>, amw: Ops<T>, p: Pair<S, T>, side: Side, s: Snapshot,
                          incoming: Result): ReadOutcome<S, T>
  {
    match side
    case Standard =>
      var r := std.read(p.standard, s, incoming);
      ReadOutcome(p.(standard := r.next), r.status, r.snapshot, SetExecutor(r.result, SideName(side)))
    case Amw0 =>
      var r := amw.read(p.amw0, s, incoming);
      ReadOutcome(p.(amw0 := r.next), r.status, r.snapshot, SetExecutor(r.result, SideName(side)))
  }

  predicate FallsBack(status: Status) { status == NotSupported || status == NotFound }

  /** The primary read with its fallback, and the side whose answer was used. */
  function ReadRouted<S, T>(c: Config, std: Ops<S>, amw: Ops<T>, p: Pair<S, T>, primary: Side, s: Snapshot,
                            incoming: Result)
    : (ReadOutcome<S, T>, Side)
  {
    var first := ReadSide(std, amw, p, primary, s, incoming);
    if !FallsBack(first.status) then (first, primary)
    else match Secondary(c, ReadRoute, primary)
      case None => (first.(result := FallbackDetail(first.result, ReadRoute, primary, None, first.status)), primary)
      case Some(secondary) =>
        var second := ReadSide(std, amw, first.next, secondary, first.snapshot, first.result);
        (second.(result := if second.result.detail == ""
                           then FallbackDetail(second.result, ReadRoute, primary, Some(secondary), NotSupported)
                               else second.result),
         secondary)
  }

  /** The overlay read runs in its own environment `again`; when it fails the first answer stands alone. */
  function WithOverlay<S, T>(c: Config, again: Ops<T>, read: ReadOutcome<S, T>): ReadOutcome<S, T>
  {
    var r := again.read(read.next.amw0, EmptySnapshot(), ResetResult());
    var next := read.next.(amw0 := r.next);
    if r.status == Ok then read.(next := next, snapshot := Overlay(read.snapshot, r.snapshot, RoutesOf(c.execution)))
    else read.(next := next)
  }

  function Stamped(c: Config, s: Snapshot, side: Side): Snapshot
  {
    s.(backendName := SideName(side), selected := c.selected, fallbackReason := c.reason, execution := c.execution)
  }

  /** `converged_read_state` */
  function ReadState<S, T>(c: Config, std: Ops<S>, amw: Ops<T>, again: Ops<T>, p: Pair<S, T>, s: Snapshot,
                           incoming: Result)
    : ReadOutcome<S, T>
  {
    match Primary(c, ReadRoute)
    case None => ReadOutcome(p, NotSupported, s, SetDetail(ResetResult(), "no converged backend can read state"))
    case Some(primary) =>
      var (read, side) := ReadRouted(c, std, amw, p, primary, s, incoming);
      if read.status != Ok then read
      else
        var laid := if primary != Amw0 && c.amw0Available then WithOverlay(c, again, read) else read;
        laid.(snapshot := Stamped(c, laid.snapshot, side))
  }

  // ----- routing discipline

  /** At most two calls; the second goes to the other backend, and only after NOT_SUPPORTED from the first
      or as the second half of a split; the executor names the last backend called, or "mixed" once both
      halves of a split ran. */
  predicate Disciplined<S, T>(c: Config, op: Operation, o: Outcome<S, T>)
  {
    && |o.calls| <= 2
    && (o.calls == [] ==> o.status != Ok && o.result.executor == "")
    && (o.calls != [] ==> o.status == o.calls[|o.calls| - 1].status && Takes(c, o.calls[0].side, RouteOf(op)))
    && (|o.calls| == 1 ==> o.result.executor == SideName(o.calls[0].side))
    && (|o.calls| == 2 ==>
          && o.calls[0].side != o.calls[1].side && Takes(c, o.calls[1].side, RouteOf(op))
          && ((o.calls[0].status == NotSupported && o.calls[0].op == op && o.calls[1].op == op
               && o.result.executor == SideName(o.calls[1].side))
              || (op.ApplyPower? && Splits(c, op.limits) && o.calls[0].status == Ok
                  && o.calls[0] == Call(Standard, ApplyPower(StandardPart(op.limits)), Ok)
                  && o.calls[1].op == ApplyPower(Amw0Part(op.limits)) && o.result.executor == "mixed")))
  }

  lemma RoutedDisciplined<S, T>(c: Config, std: Ops<S>, amw: Ops<T>, p: Pair<S, T>, op: Operation, incoming: Result)
    ensures Disciplined(c, op, ApplyRouted(c, std, amw, p, op, incoming))
  {
  }

  lemma SplitDisciplined<S, T>(c: Config, std: Ops<S>, amw: Ops<T>, p: Pair<S, T>, l: PowerLimits)
    requires Splits(c, l)
    ensures Disciplined(c, ApplyPower(l), ApplySplit(std, amw, p, l))
  {
  }

  /** Whatever the two backends answer, every call keeps the discipline. */
  lemma CallsDisciplined<S, T>(c: Config, std: Ops<S>, amw: Ops<T>, p: Pair<S, T>, op: Operation, incoming: Result)
    ensures Disciplined(c, op, ApplyAny(c, std, amw, p, op, incoming))
  {
    if op.ApplyPower? && op.limits.AnyPresent() && Splits(c, op.limits) {
      SplitDisciplined(c, std, amw, p, op.limits);
    } else if !op.ApplyPower? || op.limits.AnyPresent() {
      RoutedDisciplined(c, std, amw, p, op, incoming);
    }
  }

  /** The three ways a power write succeeds. */
  lemma PowerWrite<S, T>(c: Config, std: Ops<S>, amw: Ops<T>, p: Pair<S, T>, l: PowerLimits, incoming: Result)
    requires ApplyAny(c, std, amw, p, ApplyPower(l), incoming).status == Ok
    ensures l.AnyPresent()
    ensures var n := ApplyAny(c, std, amw, p, ApplyPower(l), incoming).next;
      if Splits(c, l) then
        var a := std.apply(p.standard, ApplyPower(StandardPart(l)), ResetResult());
        var b := amw.apply(p.amw0, ApplyPower(Amw0Part(l)), ResetResult());
        a.status == Ok && b.status == Ok && n == Pair(a.next, b.next)
      else if Takes(c, Standard, PowerRoute) then
        var a := std.apply(p.standard, ApplyPower(l), incoming);
        var b := amw.apply(p.amw0, ApplyPower(l), SetExecutor(a.result, "standard"));
        (a.status == Ok && n == Pair(a.next, p.amw0)) ||
            (a.status == NotSupported && b.status == Ok && n == Pair(a.next, b.next))
      else
        var b := amw.apply(p.amw0, ApplyPower(l), incoming);
        b.status == Ok && n == Pair(p.standard, b.next)
  {
  }

  /** A read that both halves answer. */
  lemma ReadBoth<S, T>(c: Config, std: Ops<S>, amw: Ops<T>, again: Ops<T>, p: Pair<S, T>, s: Snapshot, incoming: Result)
    requires Takes(c, Standard, ReadRoute) && c.amw0Available
    requires std.read(p.standard, s, incoming).status == Ok
    ensures var a := std.read(p.standard, s, incoming); var b := again.read(p.amw0, EmptySnapshot(), ResetResult());
      var r := ReadState(c, std, amw, again, p, s, incoming);
      && r.status == Ok && r.next == Pair(a.next, b.next)
      && r.snapshot == Stamped(c, if b.status == Ok then Overlay(a.snapshot, b.snapshot, RoutesOf(c.execution))
                               else a.snapshot, Standard)
  {
  }

  // ----- as the object the daemon holds

  class ConvergedBackend<S, T> {
    const config: Config
    var standard: S
    var amw0: T
    ghost var calls: seq<Call>  // every backend call made so far

    ghost function Value(): Pair<S, T>
      reads this
    {
      Pair(standard, amw0)
    }

    constructor (config: Config, standard: S, amw0: T)
      ensures this.config == config && Value() == Pair(standard, amw0) && calls == []
    {
      this.config, this.standard, this.amw0, calls := config, standard, amw0, [];
    }

    method CallBackend(side: Side, op: Operation, std: Ops<S>, amw: Ops<T>, incoming: Result)
      returns (status: Status, result: Result)
      modifies this
      ensures var o := CallSide(std, amw, old(Value()), side, op, incoming);
        Value() == o.next && status == o.status && result == o.result && calls == old(calls) + o.calls
    {
      if side == Standard {
        var r := std.apply(standard, op, incoming);
        standard, status, result := r.next, r.status, r.result;
      } else {
        var r := amw.apply(amw0, op, incoming);
        amw0, status, result := r.next, r.status, r.result;
      }
      result := SetExecutor(result, SideName(side));
      calls := calls + [Call(side, op, status)];
    }

    /** The five routed apply operations share this shape. */
    method ApplyByRoute(op: Operation, std: Ops<S>, amw: Ops<T>, incoming: Result)
      returns (status: Status, result: Result)
      modifies this
      ensures var o := ApplyRouted(config, std, amw, old(Value()), op, incoming);
        Value() == o.next && status == o.status && result == o.result && calls == old(calls) + o.calls
    {
      var primary := Primary(config, RouteOf(op));
      if primary == None {
        return NotSupported, SetDetail(ResetResult(), NoRouteText(op));
      }
      status, result := CallBackend(primary.value, op, std, amw, incoming);
      if status == NotSupported {
        var secondary := Secondary(config, RouteOf(op), primary.value);
        if secondary.Some? {
          status, result := CallBackend(secondary.value, op, std, amw, result);
          if result.detail == "" {
            result := FallbackDetail(result, RouteOf(op), primary.value, secondary, NotSupported);
          }
          return;
        }
        result := FallbackDetail(result, RouteOf(op), primary.value, None, status);
      }
    }

    /** `converged_apply_power_limits` */
    method ApplyPowerLimits(limits: PowerLimits, std: Ops<S>, amw: Ops<T>, incoming: Result)
      returns (status: Status, result: Result)
      modifies this
      ensures var o := ApplyAny(config, std, amw, old(Value()), ApplyPower(limits), incoming);
        Value() == o.next && status == o.status && result == o.result && calls == old(calls) + o.calls
    {
      if !limits.AnyPresent() {
        return InvalidArgument, SetDetail(ResetResult(), "power limit write requires at least one present field");
      }
      if Splits(config, limits) {
        var first, second;
        status, first := CallBackend(Standard, ApplyPower(StandardPart(limits)), std, amw, ResetResult());
        if status != Ok {
          return status, first;
        }
        status, second := CallBackend(Amw0, ApplyPower(Amw0Part(limits)), std, amw, ResetResult());
        result := MixedResult(first, second, status);
        return;
      }
      status, result := ApplyByRoute(ApplyPower(limits), std, amw, incoming);
    }

    method ReadBackend(side: Side, std: Ops<S>, amw: Ops<T>, s: Snapshot, incoming: Result)
      returns (status: Status, snapshot: Snapshot, result: Result)
      modifies `standard, `amw0
      ensures ReadOutcome(Value(), status, snapshot, result) == ReadSide(std, amw, old(Value()), side, s, incoming)
    {
      if side == Standard {
        var r := std.read(standard, s, incoming);
        standard, status, snapshot, result := r.next, r.status, r.snapshot, r.result;
      } else {
        var r := amw.read(amw0, s, incoming);
        amw0, status, snapshot, result := r.next, r.status, r.snapshot, r.result;
      }
      result := SetExecutor(result, SideName(side));
    }

    /** `converged_read_state` */
    method Read(std: Ops<S>, amw: Ops<T>, again: Ops<T>, s: Snapshot, incoming: Result)
      returns (status: Status, snapshot: Snapshot, result: Result)
      modifies `standard, `amw0
      ensures ReadOutcome(Value(), status, snapshot, result) ==
        ReadState(config, std, amw, again, old(Value()), s, incoming)
    {
      var primary := Primary(config, ReadRoute);
      if primary == None {
        return NotSupported, s, SetDetail(ResetResult(), "no converged backend can read state");
      }
      var used := primary.value;
      status, snapshot, result := ReadBackend(used, std, amw, s, incoming);
      if FallsBack(status) {
        var secondary := Secondary(config, ReadRoute, primary.value);
        if secondary.Some? {
          used := secondary.value;
          status, snapshot, result := ReadBackend(used, std, amw, snapshot, result);
          if result.detail == "" {
            result := FallbackDetail(result, ReadRoute, primary.value, secondary, NotSupported);
          }
        } else {
          result := FallbackDetail(result, ReadRoute, primary.value, None, status);
        }
      }
      if status != Ok {
        return;
      }
      if primary.value != Amw0 && config.amw0Available {
        var r := again.read(amw0, EmptySnapshot(), ResetResult());
        amw0 := r.next;
        if r.status == Ok {
          snapshot := OverlayInPlace(snapshot, r.snapshot, config.execution);
        }
      }
      snapshot := Stamped(config, snapshot, used);
    }
  }
}
