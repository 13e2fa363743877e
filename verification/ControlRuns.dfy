// Mode and fan boost share the byte at 0x751; over whole runs they stay independent.
module ControlRuns {
  import opened Types
  import opened Plans
  import opened EcMemory
  import opened FanTables
  import opened PlanBuilders
  import opened FanImage
  import opened Backends
  import opened Amw0
  import opened Amw0Ops
  import opened Amw0Theorems

  datatype Event = Call(op: Operation, hw: Hardware) | ReadBack(hw: Hardware)

  ghost function Next(s: State, e: Event): State
  {
    match e
    case Call(op, hw) => Table(hw).apply(s, op, ResetResult()).next
    case ReadBack(hw) => Read(s, hw).next
  }

  ghost function After(s: State, events: seq<Event>): State
  {
    if events == [] then s else Next(After(s, events[..|events| - 1]), events[|events| - 1])
  }

  /** The mode an operation asks for, by mode or by an accepted profile name. */
  function AskedMode(op: Operation): Option<Mode>
  {
    match op
    case ApplyMode(mode) => Some(mode)
    case ApplyProfile(name) => AliasToMode(name)
    case _ => None
  }

  predicate ControlsByte(op: Operation) { AskedMode(op).Some? || op.ApplyFanBoost? }

  /** The event may end in any way unless it writes the control byte. */
  ghost predicate Allowed(s: State, e: Event)
  {
    e.Call? && ControlsByte(e.op) ==> Table(e.hw).apply(s, e.op, ResetResult()).status == Ok
  }

  ghost predicate AllowedRun(s: State, events: seq<Event>)
  {
    forall i | 0 <= i < |events| :: Allowed(After(s, events[..i]), events[i])
  }

  function LastMode(initial: Mode, events: seq<Event>): Mode
  {
    if events == [] then initial
    else
      var e := events[|events| - 1];
      if e.Call? && AskedMode(e.op).Some? then AskedMode(e.op).value else LastMode(initial, events[..|events| - 1])
  }

  function LastBoost(initial: bool, events: seq<Event>): bool
  {
    if events == [] then initial
    else
      var e := events[|events| - 1];
      if e.Call? && e.op.ApplyFanBoost? then e.op.enabled else LastBoost(initial, events[..|events| - 1])
  }

  lemma LastOfSnoc(mode: Mode, boost: bool, front: seq<Event>, e: Event)
    ensures LastMode(mode, front + [e]) ==
      if e.Call? && AskedMode(e.op).Some? then AskedMode(e.op).value else LastMode(mode, front)
    ensures LastBoost(boost, front + [e]) ==
      if e.Call? && e.op.ApplyFanBoost? then e.op.enabled else LastBoost(boost, front)
  {
    assert (front + [e])[..|front|] == front;
  }

  // ----- the byte itself

  /** Toggling boost leaves the other seven bits alone. */
  lemma BoostKeepsOtherBits(c: byte, enabled: bool)
    ensures var d := WithBoost(c, enabled);
      && BoostBit(d) == enabled && d / 0x80 == c / 0x80 && d % 0x40 == c % 0x40
      && DecodeMode(d) == DecodeMode(c)
  {
  }

  /** Writing a mode decodes to that mode and keeps the boost bit. */
  lemma ModeTargetDecodes(mode: Mode, current: byte)
    ensures DecodeMode(ModeTarget(mode, current)) == mode
    ensures BoostBit(ModeTarget(mode, current)) == BoostBit(current)
  {
  }

  /** The integer reading of the mask operations is the bit-vector one. */
  lemma BitsAreMasks(v: bv8)
    ensures BoostBit(v as int) <==> v & 0x40 != 0
    ensures CustomBit(v as int) <==> v & 0x80 != 0
    ensures TurboBit(v as int) <==> v & 0x10 != 0
    ensures HiModeBit(v as int) <==> v & 0x20 != 0
  {
  }

  // ----- one event

  /** The backend knows the byte the EC holds. */
  predicate Synced(s: State)
  {
    !s.dryRun && s.hasControl && s.control == s.ec[MODE_CONTROL]
  }

  /** The published shadow profile and boost are the decoding of the shadow control byte. */
  predicate ShadowAgrees(s: State)
  {
    s.hasControl ==>
      && s.shadow.effective.profile == ModeName(DecodeMode(s.control))
      && s.shadow.effective.hasBoost && s.shadow.effective.boost == BoostBit(s.control)
  }

  /** The byte a read-modify-write would start from if the EC byte cannot be read. */
  function Known(s: State): byte { if s.hasControl then s.control else FallbackControl(s.shadow) }

  /** The event reads the control byte from the EC. */
  predicate Sees(e: Event) { e.hw.readable(MODE_CONTROL) && (e.ReadBack? || ControlsByte(e.op)) }

  predicate WritesControl(e: Event) { e.Call? && ControlsByte(e.op) }

  /** What a write of the control byte makes of the byte it starts from. */
  function ByteAfter(c: byte, e: Event): byte
    requires WritesControl(e)
  {
    if AskedMode(e.op).Some? then ModeTarget(AskedMode(e.op).value, c) else WithBoost(c, e.op.enabled)
  }

  /** A successful write of the control byte, whatever was known before: the EC ends with the byte made of the one the
      backend started from, and backend, shadow and EC agree on it. */
  lemma WriteEvent(s: State, e: Event)
    requires !s.dryRun && WritesControl(e) && Allowed(s, e)
    ensures var n := Next(s, e); var c := CurrentControl(s, e.hw).1;
      && c == (if Sees(e) then s.ec[MODE_CONTROL] else Known(s))
      && n.ec[MODE_CONTROL] == ByteAfter(c, e) && Synced(n) && ShadowAgrees(n)
  {
    if AskedMode(e.op).Some? {
      ModeEvent(s, e.hw, AskedMode(e.op).value);
    } else {
      BoostEvent(s, e.hw, e.op.enabled);
    }
  }

  /** Every other event leaves the EC byte alone, and what is known of it too unless it reads it. */
  lemma QuietEvent(s: State, e: Event)
    requires !s.dryRun && !WritesControl(e)
    ensures var n := Next(s, e);
      && n.ec[MODE_CONTROL] == s.ec[MODE_CONTROL]
      && Known(n) == (if Sees(e) then s.ec[MODE_CONTROL] else Known(s))
      && (Synced(s) ==> Synced(n)) && (ShadowAgrees(s) ==> ShadowAgrees(n))
  {
    if e.Call? {
      OtherEvent(s, e.hw, e.op);
    } else {
      ReadEvent(s, e.hw);
    }
  }

  /** A read takes over the byte if it sees it, and otherwise keeps what was known. */
  lemma ReadEvent(s: State, hw: Hardware)
    requires !s.dryRun
    ensures var n := Read(s, hw).next;
      && n.ec == s.ec && Known(n) == (if hw.readable(MODE_CONTROL) then s.ec[MODE_CONTROL] else Known(s))
      && (Synced(s) ==> Synced(n)) && (ShadowAgrees(s) ==> ShadowAgrees(n))
  {
  }

  /** Limits, tables and unknown profile names have nothing to do with the byte. */
  lemma OtherEvent(s: State, hw: Hardware, op: Operation)
    requires AskedMode(op).None? && !op.ApplyFanBoost?
    ensures var n := Table(hw).apply(s, op, ResetResult()).next;
      && n.ec[MODE_CONTROL] == s.ec[MODE_CONTROL] && n.hasControl == s.hasControl && n.control == s.control
      && n.dryRun == s.dryRun && SameNames(s.shadow, n.shadow)
  {
    if op.ApplyPower? {
      PowerLeavesControl(s, hw, op.limits);
    } else if op.ApplyFanTable? {
      FanTableLeavesControl(s, hw, op.table);
    }
  }

  /** Nothing the reconstruction of the byte looks at has changed. */
  predicate SameNames(a: Snapshot, b: Snapshot)
  {
    SameNamesOf(a.requested, b.requested) && SameNamesOf(a.effective, b.effective)
  }

  predicate SameNamesOf(a: Target, b: Target)
  {
    a.profile == b.profile && a.hasBoost == b.hasBoost && a.boost == b.boost
  }

  lemma ModeEvent(s: State, hw: Hardware, mode: Mode)
    requires !s.dryRun && SetMode(s, hw, mode).status == Ok
    ensures var n := SetMode(s, hw, mode).next;
      && Synced(n) && ShadowAgrees(n) && n.ec[MODE_CONTROL] == ModeTarget(mode, CurrentControl(s, hw).1)
  {
    var (s1, current) := CurrentControl(s, hw);
    var steps := ModeSteps(mode, ModeTarget(mode, current));
    RunStepsConsistent(s1, steps, hw);
    ModeTargetDecodes(mode, current);
    assert steps[..|steps| - 1] == [steps[0]];
  }

  lemma BoostEvent(s: State, hw: Hardware, enabled: bool)
    requires !s.dryRun && SetBoost(s, hw, enabled).status == Ok
    ensures var n := SetBoost(s, hw, enabled).next;
      && Synced(n) && ShadowAgrees(n) && n.ec[MODE_CONTROL] == WithBoost(CurrentControl(s, hw).1, enabled)
  {
    var (s1, current) := CurrentControl(s, hw);
    var steps := BoostSteps(WithBoost(current, enabled));
    RunStepsConsistent(s1, steps, hw);
    BoostKeepsOtherBits(current, enabled);
  }

  /** Two bytes that differ at most in the boost bit. */
  predicate SameButBoost(a: byte, b: byte) { a / 0x80 == b / 0x80 && a % 0x40 == b % 0x40 }

  /** A boost toggle keeps the other seven bits of the EC byte exactly when the byte it started from has them. */
  lemma BoostKeepsExactly(s: State, hw: Hardware, enabled: bool)
    requires !s.dryRun && SetBoost(s, hw, enabled).status == Ok
    ensures var n := SetBoost(s, hw, enabled).next;
      && BoostBit(n.ec[MODE_CONTROL]) == enabled
      && (SameButBoost(n.ec[MODE_CONTROL], s.ec[MODE_CONTROL]) <==>
          SameButBoost(CurrentControl(s, hw).1, s.ec[MODE_CONTROL]))
  {
    BoostEvent(s, hw, enabled);
    BoostKeepsOtherBits(CurrentControl(s, hw).1, enabled);
  }

  /** A mode change keeps the boost bit of the EC byte exactly when the byte it started from has it. */
  lemma ModeKeepsExactly(s: State, hw: Hardware, mode: Mode)
    requires !s.dryRun && SetMode(s, hw, mode).status == Ok
    ensures var n := SetMode(s, hw, mode).next;
      && DecodeMode(n.ec[MODE_CONTROL]) == mode
      && (BoostBit(n.ec[MODE_CONTROL]) == BoostBit(s.ec[MODE_CONTROL]) <==>
            BoostBit(CurrentControl(s, hw).1) == BoostBit(s.ec[MODE_CONTROL]))
  {
    ModeEvent(s, hw, mode);
    ModeTargetDecodes(mode, CurrentControl(s, hw).1);
  }

  /** Unread and never known, the byte is made up from the shadow: the first boost toggle moves a machine in turbo mode
      to office, if that is what the shadow was seeded with. */
  lemma UnreadBoostLosesMode(s: State, hw: Hardware)
    requires !s.dryRun && !s.hasControl && s.failAfter == 0 && !hw.readable(MODE_CONTROL) && hw.send(0) == Landed
    requires s.shadow.effective.profile == "office" && s.ec[MODE_CONTROL] == 0x10
    ensures var r := SetBoost(s, hw, true);
      r.status == Ok && DecodeMode(s.ec[MODE_CONTROL]) == Turbo && DecodeMode(r.next.ec[MODE_CONTROL]) == Office
  {
    var (s1, current) := CurrentControl(s, hw);
    var steps := BoostSteps(WithBoost(current, true));
    assert steps[..|steps| - 1] == [];
    assert RunSteps(s1, [], hw) == Run(s1, Ok, 0);
    ModeNamesDistinct();
    BoostEvent(s, hw, true);
  }

  /** The first mode change switches the boost off in the same way. */
  lemma UnreadModeLosesBoost(s: State, hw: Hardware)
    requires !s.dryRun && !s.hasControl && s.failAfter == 0 && !hw.readable(MODE_CONTROL) &&
      hw.send(0) == hw.send(1) == Landed
    requires !s.shadow.effective.hasBoost && !s.shadow.requested.hasBoost && s.ec[MODE_CONTROL] == 0x40
    ensures var r := SetMode(s, hw, Gaming);
      r.status == Ok && BoostBit(s.ec[MODE_CONTROL]) && !BoostBit(r.next.ec[MODE_CONTROL])
  {
    var (s1, current) := CurrentControl(s, hw);
    var steps := ModeSteps(Gaming, ModeTarget(Gaming, current));
    assert steps[..1] == [steps[0]] && steps[..1][..0] == [];
    assert RunSteps(s1, steps[..1], hw).status == Ok;
    ModeEvent(s, hw, Gaming);
  }

  ghost predicate Avoids(steps: seq<Step>, addr: u16)
  {
    forall i | 0 <= i < |steps| :: steps[i].addr != addr
  }

  lemma {:induction false} StepEffectsFrame(mem: Memory, steps: seq<Step>, addr: u16)
    requires Avoids(steps, addr)
    ensures StepEffects(mem, steps)[addr] == mem[addr]
  {
    if steps != [] {
      StepEffectsFrame(mem, steps[..|steps| - 1], addr);
    }
  }

  /** Whatever happens to a write sequence, an address it does not name keeps its byte. */
  lemma RunFrame(s: State, steps: seq<Step>, hw: Hardware, addr: u16)
    requires Avoids(steps, addr)
    ensures RunSteps(s, steps, hw).state.ec[addr] == s.ec[addr]
  {
    var r := RunSteps(s, steps, hw);
    RunStepsConsistent(s, steps, hw);
    StepEffectsFrame(s.ec, steps, addr);
    if r.done < |steps| {
      StepEffectsFrame(s.ec, steps[..Reached(s, hw, r.done)], addr);
    }
  }

  lemma PowerStepsAddresses(limits: PowerLimits)
    ensures forall i | 0 <= i < |PowerSteps(limits)| :: PowerSteps(limits)[i].addr in {PL1, PL2, PL4, TCC_OFFSET}
  {
  }

  lemma PowerLeavesControl(s: State, hw: Hardware, limits: PowerLimits)
    ensures var n := SetPower(s, hw, limits, ResetResult()).next;
      && n.ec[MODE_CONTROL] == s.ec[MODE_CONTROL] && n.hasControl == s.hasControl && n.control == s.control
      && n.dryRun == s.dryRun && SameNames(s.shadow, n.shadow)
  {
    PowerStepsAddresses(limits);
    RunFrame(s, PowerSteps(limits), hw, MODE_CONTROL);
    RunStepsConsistent(s, PowerSteps(limits), hw);
  }

  lemma {:induction false} PlanStepsAddresses(actions: seq<Action>, addr: u16)
    requires !Touches(actions, addr)
    ensures Avoids(PlanSteps(actions), addr)
  {
    if actions != [] {
      var front := actions[..|actions| - 1];
      assert forall i | 0 <= i < |front| :: front[i] == actions[i];
      PlanStepsAddresses(front, addr);
      assert !Writes(actions[|actions| - 1], addr);
    }
  }

  lemma FanTableLeavesControl(s: State, hw: Hardware, name: string)
    ensures var n := SetFanTable(s, hw, name, ResetResult()).next;
      && n.ec[MODE_CONTROL] == s.ec[MODE_CONTROL] && n.hasControl == s.hasControl && n.control == s.control
      && n.dryRun == s.dryRun && SameNames(s.shadow, n.shadow)
  {
    if name != "" && hw.load(name).Found? && ValidationStatus(hw.load(name).table) == Ok {
      var t := hw.load(name).table;
      PlanStepsExist(t);
      FanProgramCorrect(s.ec, t);
      PlanStepsAddresses(FanProgram(t), MODE_CONTROL);
      RunFrame(s.(writeCount := 0), PlanSteps(FanProgram(t)), hw, MODE_CONTROL);
      RunStepsConsistent(s.(writeCount := 0), PlanSteps(FanProgram(t)), hw);
    }
  }

  // ----- whole runs

  predicate AnyWrite(events: seq<Event>) { exists i | 0 <= i < |events| :: WritesControl(events[i]) }

  predicate AsksMode(events: seq<Event>)
  {
    exists i | 0 <= i < |events| :: events[i].Call? && AskedMode(events[i].op).Some?
  }

  predicate AsksBoost(events: seq<Event>)
  {
    exists i | 0 <= i < |events| :: events[i].Call? && events[i].op.ApplyFanBoost?
  }

  /** The control byte is read before its first write is made, or by that write. */
  predicate SeenInTime(events: seq<Event>)
  {
    events != [] && (SeenInTime(events[..|events| - 1])
                     || (!AnyWrite(events[..|events| - 1]) && Sees(events[|events| - 1])))
  }

  /** The byte the first write starts from: the EC's if it was read in time, else what was known or made up at the
      start. */
  function Basis(s: State, events: seq<Event>): byte
  {
    if SeenInTime(events) then s.ec[MODE_CONTROL] else Known(s)
  }

  /** The byte, and the shadow with it, is what the last mode and the last boost asked for make of `c`. */
  ghost predicate Tracks(c: byte, n: State, events: seq<Event>)
  {
    && Synced(n) && ShadowAgrees(n)
    && DecodeMode(n.ec[MODE_CONTROL]) == LastMode(DecodeMode(c), events)
    && BoostBit(n.ec[MODE_CONTROL]) == LastBoost(BoostBit(c), events)
  }

  /** Where a run stands, before and after its first write. */
  ghost predicate Stands(s: State, n: State, events: seq<Event>)
  {
    && !n.dryRun
    && (if AnyWrite(events) then Tracks(Basis(s, events), n, events)
        else n.ec[MODE_CONTROL] == s.ec[MODE_CONTROL] && Known(n) == Basis(s, events))
  }

  lemma AllowedFront(s: State, events: seq<Event>)
    requires events != [] && AllowedRun(s, events)
    ensures var front := events[..|events| - 1]; AllowedRun(s, front) && Allowed(After(s, front), events[|events| - 1])
  {
    var front := events[..|events| - 1];
    forall i | 0 <= i < |front|
      ensures Allowed(After(s, front[..i]), front[i])
    {
      assert front[..i] == events[..i];
      assert Allowed(After(s, events[..i]), events[i]);
    }
    assert Allowed(After(s, events[..|events| - 1]), events[|events| - 1]);
  }

  lemma NextKeepsDryRun(s: State, e: Event)
    ensures Next(s, e).dryRun == s.dryRun
  {
    if e.Call? {
      OperationKeepsShadow(s, e.hw, e.op, ResetResult());
    }
  }

  lemma WritesOfSnoc(front: seq<Event>, e: Event)
    ensures AnyWrite(front + [e]) <==> AnyWrite(front) || WritesControl(e)
    ensures AsksMode(front + [e]) <==> AsksMode(front) || (e.Call? && AskedMode(e.op).Some?)
    ensures AsksBoost(front + [e]) <==> AsksBoost(front) || (e.Call? && e.op.ApplyFanBoost?)
    ensures SeenInTime(front + [e]) <==> SeenInTime(front) || (!AnyWrite(front) && Sees(e))
  {
    var all := front + [e];
    assert all[..|front|] == front && all[|front|] == e;
    assert forall i | 0 <= i < |front| :: all[i] == front[i];
  }

  /** One more write moves the byte as the last mode and boost say. */
  lemma WriteTracks(c: byte, front: seq<Event>, e: Event, m: State)
    requires !m.dryRun && WritesControl(e) && Allowed(m, e)
    requires var b := CurrentControl(m, e.hw).1;
      DecodeMode(b) == LastMode(DecodeMode(c), front) && BoostBit(b) == LastBoost(BoostBit(c), front)
    ensures Tracks(c, Next(m, e), front + [e])
  {
    WriteEvent(m, e);
    LastOfSnoc(DecodeMode(c), BoostBit(c), front, e);
    var b := CurrentControl(m, e.hw).1;
    if AskedMode(e.op).Some? {
      ModeTargetDecodes(AskedMode(e.op).value, b);
    } else {
      BoostKeepsOtherBits(b, e.op.enabled);
    }
  }

  lemma {:induction false} NothingAsked(mode: Mode, boost: bool, events: seq<Event>)
    ensures !AsksMode(events) ==> LastMode(mode, events) == mode
    ensures AsksMode(events) ==> LastMode(mode, events) == LastMode(Office, events)
    ensures !AsksBoost(events) ==> LastBoost(boost, events) == boost
    ensures AsksBoost(events) ==> LastBoost(boost, events) == LastBoost(false, events)
  {
    if events != [] {
      var front, e := events[..|events| - 1], events[|events| - 1];
      assert front + [e] == events;
      WritesOfSnoc(front, e);
      NothingAsked(mode, boost, front);
    }
  }

  lemma WritesAsk(events: seq<Event>)
    ensures AnyWrite(events) <==> AsksMode(events) || AsksBoost(events)
  {
    if AnyWrite(events) {
      var i :| 0 <= i < |events| && WritesControl(events[i]);
      assert AskedMode(events[i].op).Some? || events[i].op.ApplyFanBoost?;
    }
    if AsksMode(events) {
      var i :| 0 <= i < |events| && events[i].Call? && AskedMode(events[i].op).Some?;
      assert WritesControl(events[i]);
    }
    if AsksBoost(events) {
      var i :| 0 <= i < |events| && events[i].Call? && events[i].op.ApplyFanBoost?;
      assert WritesControl(events[i]);
    }
  }

  lemma OneMore(s: State, m: State, front: seq<Event>, e: Event)
    requires Stands(s, m, front) && Allowed(m, e)
    ensures Stands(s, Next(m, e), front + [e])
  {
    NextKeepsDryRun(m, e);
    WritesOfSnoc(front, e);
    var c := Basis(s, front + [e]);
    if WritesControl(e) {
      WriteEvent(m, e);
      if !AnyWrite(front) {
        WritesAsk(front);
        NothingAsked(DecodeMode(c), BoostBit(c), front);
      }
      WriteTracks(c, front, e, m);
    } else {
      QuietEvent(m, e);
      LastOfSnoc(DecodeMode(c), BoostBit(c), front, e);
    }
  }

  /** Over any run in which the mode and boost writes succeed (reads, power writes and fan programs may fail in any way)
      and from any state: from the first mode or boost write on, the backend knows the EC byte, the byte decodes to the
      last mode and the last boost asked for, and the published profile and boost agree with it. What was never asked
      for is as in the byte the first write started from. */
  lemma {:induction false} ModeAndBoostIndependent(s: State, events: seq<Event>)
    requires !s.dryRun && AllowedRun(s, events)
    ensures Stands(s, After(s, events), events)
  {
    if events != [] {
      var front, e := events[..|events| - 1], events[|events| - 1];
      AllowedFront(s, events);
      ModeAndBoostIndependent(s, front);
      OneMore(s, After(s, front), front, e);
      assert front + [e] == events;
    }
  }

  /** So the EC byte decodes to the last mode and boost of the run, counted from its own first byte, exactly when each
      of the two was asked for or was the EC's own in the byte the first write started from. */
  lemma IndependentExactly(s: State, events: seq<Event>)
    requires !s.dryRun && AllowedRun(s, events)
    ensures var c, d, b := s.ec[MODE_CONTROL], After(s, events).ec[MODE_CONTROL], Basis(s, events);
      DecodeMode(d) == LastMode(DecodeMode(c), events) && BoostBit(d) == LastBoost(BoostBit(c), events) <==>
        !AnyWrite(events)
        || ((AsksMode(events) || DecodeMode(b) == DecodeMode(c)) && (AsksBoost(events) || BoostBit(b) == BoostBit(c)))
  {
    ModeAndBoostIndependent(s, events);
    WritesAsk(events);
    var c, b := s.ec[MODE_CONTROL], Basis(s, events);
    NothingAsked(DecodeMode(c), BoostBit(c), events);
    NothingAsked(DecodeMode(b), BoostBit(b), events);
  }

  // ----- where agreement stops: a failed control write after the EC byte moved

  /** The shadow publishes what the EC byte says. */
  predicate ShadowShows(s: State)
  {
    && s.shadow.effective.profile == ModeName(DecodeMode(s.ec[MODE_CONTROL]))
    && s.shadow.effective.hasBoost && s.shadow.effective.boost == BoostBit(s.ec[MODE_CONTROL])
  }

  /** A failed mode change keeps the agreement exactly when the byte it read, if any, still decodes to the shadow. */
  lemma FailedModeAgreement(s: State, hw: Hardware, mode: Mode)
    requires SetMode(s, hw, mode).status != Ok
    ensures ShadowAgrees(SetMode(s, hw, mode).next) <==>
      if Live(s, hw, MODE_CONTROL) then ShadowShows(s) else ShadowAgrees(s)
  {
    var (s1, current) := CurrentControl(s, hw);
    RunStepsConsistent(s1, ModeSteps(mode, ModeTarget(mode, current)), hw);
  }

  /** So does a failed boost toggle. */
  lemma FailedBoostAgreement(s: State, hw: Hardware, enabled: bool)
    requires SetBoost(s, hw, enabled).status != Ok
    ensures ShadowAgrees(SetBoost(s, hw, enabled).next) <==>
      if Live(s, hw, MODE_CONTROL) then ShadowShows(s) else ShadowAgrees(s)
  {
    var (s1, current) := CurrentControl(s, hw);
    RunStepsConsistent(s1, BoostSteps(WithBoost(current, enabled)), hw);
  }

  /** The event is a control write that fails after reading a byte that does not decode to the shadow. */
  ghost predicate Misleads(s: State, e: Event)
  {
    WritesControl(e) && Table(e.hw).apply(s, e.op, ResetResult()).status != Ok && Live(s, e.hw, MODE_CONTROL) &&
        !ShadowShows(s)
  }

  lemma SucceededAgrees(s: State, e: Event)
    requires WritesControl(e) && Table(e.hw).apply(s, e.op, ResetResult()).status == Ok
    ensures ShadowAgrees(Next(s, e))
  {
    if AskedMode(e.op).Some? {
      SetModeAgrees(s, e.hw, AskedMode(e.op).value);
    } else {
      assert SetBoost(s, e.hw, e.op.enabled).status == Ok;
    }
  }

  lemma SetModeAgrees(s: State, hw: Hardware, mode: Mode)
    requires SetMode(s, hw, mode).status == Ok
    ensures ShadowAgrees(SetMode(s, hw, mode).next)
  {
    ModeTargetDecodes(mode, CurrentControl(s, hw).1);
  }

  lemma FailedAgrees(s: State, e: Event)
    requires WritesControl(e) && Table(e.hw).apply(s, e.op, ResetResult()).status != Ok
    ensures ShadowAgrees(Next(s, e)) <==> if Live(s, e.hw, MODE_CONTROL) then ShadowShows(s) else ShadowAgrees(s)
  {
    if AskedMode(e.op).Some? {
      FailedModeAgreement(s, e.hw, AskedMode(e.op).value);
    } else {
      FailedBoostAgreement(s, e.hw, e.op.enabled);
    }
  }

  lemma OneEventAgrees(s: State, e: Event)
    ensures ShadowAgrees(s) ==> (ShadowAgrees(Next(s, e)) <==> !Misleads(s, e))
    ensures Misleads(s, e) ==> !ShadowAgrees(Next(s, e))
  {
    if !WritesControl(e) {
      if e.Call? {
        OtherEvent(s, e.hw, e.op);
      }
    } else if Table(e.hw).apply(s, e.op, ResetResult()).status == Ok {
      SucceededAgrees(s, e);
    } else {
      FailedAgrees(s, e);
    }
  }

  ghost predicate AgreesAt(s: State, events: seq<Event>, i: nat)
    requires i <= |events|
  {
    ShadowAgrees(After(s, events[..i]))
  }

  ghost predicate MisledAt(s: State, events: seq<Event>, i: nat)
    requires i < |events|
  {
    Misleads(After(s, events[..i]), events[i])
  }

  ghost predicate AlwaysAgrees(s: State, events: seq<Event>)
  {
    forall i: nat | i <= |events| :: AgreesAt(s, events, i)
  }

  ghost predicate NeverMisled(s: State, events: seq<Event>)
  {
    forall i: nat | i < |events| :: !MisledAt(s, events, i)
  }

  lemma OneStepAgrees(s: State, events: seq<Event>, i: nat)
    requires i < |events|
    ensures AgreesAt(s, events, i) ==> (AgreesAt(s, events, i + 1) <==> !MisledAt(s, events, i))
    ensures MisledAt(s, events, i) ==> !AgreesAt(s, events, i + 1)
  {
    assert events[..i + 1][..i] == events[..i];
    OneEventAgrees(After(s, events[..i]), events[i]);
  }

  lemma {:induction false} AgreesUpTo(s: State, events: seq<Event>, i: nat)
    requires i <= |events| && ShadowAgrees(s) && NeverMisled(s, events)
    ensures AgreesAt(s, events, i)
  {
    if i == 0 {
      assert events[..0] == [];
    } else {
      AgreesUpTo(s, events, i - 1);
      OneStepAgrees(s, events, i - 1);
    }
  }

  /** Over any run at all, dry or not, whatever fails: shadow byte and published profile and boost agree throughout
      exactly when they agreed at the start and no control write failed after reading a byte that did not decode to the
      shadow. */
  lemma AgreementThroughout(s: State, events: seq<Event>)
    ensures AlwaysAgrees(s, events) <==> ShadowAgrees(s) && NeverMisled(s, events)
  {
    if AlwaysAgrees(s, events) {
      assert events[..0] == [] && AgreesAt(s, events, 0);
      forall i: nat | i < |events|
        ensures !MisledAt(s, events, i)
      {
        OneStepAgrees(s, events, i);
        assert AgreesAt(s, events, i + 1);
      }
    }
    if ShadowAgrees(s) && NeverMisled(s, events) {
      forall i: nat | i <= |events|
        ensures AgreesAt(s, events, i)
      {
        AgreesUpTo(s, events, i);
      }
    }
  }

  /** It does stop: the firmware moves the byte to turbo, the next mode change reads it and fails to write. */
  lemma FailedModeCanDisagree(s: State, hw: Hardware)
    requires !s.dryRun && s.shadow.effective.profile == "office"
    requires s.ec[MODE_CONTROL] == 0x10 && hw.readable(MODE_CONTROL) && hw.send(0) == Refused(IoError)
    ensures SetMode(s, hw, Office).status == IoError && !ShadowAgrees(SetMode(s, hw, Office).next)
  {
    var (s1, current) := CurrentControl(s, hw);
    var steps := ModeSteps(Office, ModeTarget(Office, current));
    assert steps[..1] == [steps[0]] && steps[..1][..0] == [];
    assert RunSteps(s1, steps[..1], hw).status != Ok;
    FailedModeAgreement(s, hw, Office);
    ModeNamesDistinct();
  }
}
