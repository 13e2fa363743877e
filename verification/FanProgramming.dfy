// Fan programming end to end: table -> plan -> writes -> EC memory, with and without failures.
module FanProgramming {
  import opened Types
  import opened Plans
  import opened EcMemory
  import opened FanTables
  import opened PlanBuilders
  import opened FanImage
  import opened Backends
  import opened Amw0
  import opened Amw0Ops
  import opened Amw0Theorems
  import opened ControlRuns

  /** The name resolves to a table that validates. */
  ghost predicate Programs(hw: Hardware, name: string, t: FanTable)
  {
    name != "" && hw.load(name) == Found(t) && ValidTable(t)
  }

  /** All of the program but the closing control byte. */
  function FanBody(t: FanTable): seq<Action> { FanHead(t) + FanStatusTail(t) }

  lemma BodyThenControl(mem: Memory, t: FanTable)
    ensures PlanSteps(FanProgram(t)) ==
      PlanSteps(FanBody(t)) + [Step(TABLE_CONTROL, TailControl(t), Label(FanTail), FanFailed())]
    ensures Avoids(PlanSteps(FanBody(t)), TABLE_CONTROL)
    ensures Effects(mem, FanProgram(t)) == Effects(mem, FanBody(t))[TABLE_CONTROL as int := TailControl(t)]
  {
    var program := FanProgram(t);
    assert program[..|program| - 1] == FanBody(t);
    PlanStepsExist(t);
    HeadEffects(mem, t);
    TouchesConcat(FanHead(t), FanStatusTail(t));
    PlanStepsAddresses(FanBody(t), TABLE_CONTROL);
  }

  /** A successful programming leaves the region encoding the table, everything else as it was,
      and the shadow naming the table. */
  lemma FanTableProgrammed(s: State, hw: Hardware, name: string, t: FanTable, incoming: Result)
    requires Programs(hw, name, t) && !s.dryRun
    requires SetFanTable(s, hw, name, incoming).status == Ok
    ensures var n := SetFanTable(s, hw, name, incoming).next;
      && Encodes(ReadImage(n.ec), t)
      && (forall addr: u16 | !InFanRegion(addr) :: n.ec[addr] == s.ec[addr])
      && n.shadow.effective.fanTable == t.name && n.shadow.requested.fanTable == t.name
  {
    PlanStepsExist(t);
    var steps := PlanSteps(FanProgram(t));
    RunStepsConsistent(s.(writeCount := 0), steps, hw);
    PlanStepsEffects(s.ec, FanProgram(t));
    FanProgramCorrect(s.ec, t);
  }

  /** After any number of the program's writes, either the control byte is untouched or all 95 others are in place. */
  lemma ControlByteLast(mem: Memory, t: FanTable, j: nat)
    requires j <= |PlanSteps(FanProgram(t))|
    ensures var m := StepEffects(mem, PlanSteps(FanProgram(t))[..j]);
      || m[TABLE_CONTROL] == mem[TABLE_CONTROL]
      || forall addr: u16 | addr != TABLE_CONTROL :: m[addr] == Effects(mem, FanProgram(t))[addr]
  {
    var steps, body := PlanSteps(FanProgram(t)), PlanSteps(FanBody(t));
    BodyThenControl(mem, t);
    if j <= |body| {
      assert steps[..j] == body[..j];
      StepEffectsFrame(mem, steps[..j], TABLE_CONTROL);
    } else {
      assert steps[..j] == steps;
      PlanStepsEffects(mem, FanProgram(t));
    }
  }

  /** A failed programming: the k-th write failed, the writes before it are exactly what reached the EC (and the k-th
      itself exactly when it was sent and only its reply was lost), the result names its stage, the shadow is untouched,
      and the control byte was written only if the other 95 bytes are already the table's. */
  lemma FanTableCrashConsistent(s: State, hw: Hardware, name: string, t: FanTable, incoming: Result) returns (k: nat)
    requires Programs(hw, name, t) && !s.dryRun
    requires SetFanTable(s, hw, name, incoming).status != Ok
    ensures k < |PlanSteps(FanProgram(t))|
    ensures var n := SetFanTable(s, hw, name, incoming).next; var steps := PlanSteps(FanProgram(t));
      && n.ec == StepEffects(s.ec, steps[..if hw.send(k).ReplyLost? && s.failAfter != k + 1 then k + 1 else k])
      && (hw.send(k).Landed? ==> s.failAfter == k + 1)
      && n.shadow == s.shadow && n.hasControl == s.hasControl && n.control == s.control
    ensures SetFanTable(s, hw, name, incoming).result.stage == Truncate(PlanSteps(FanProgram(t))[k].stage, 96)
    ensures var n := SetFanTable(s, hw, name, incoming).next;
      || n.ec[TABLE_CONTROL] == s.ec[TABLE_CONTROL]
      || forall addr: u16 | addr != TABLE_CONTROL :: n.ec[addr] == Effects(s.ec, FanProgram(t))[addr]
  {
    PlanStepsExist(t);
    var steps := PlanSteps(FanProgram(t));
    var s0 := s.(writeCount := 0);
    k := RunSteps(s0, steps, hw).done;
    RunStepsConsistent(s0, steps, hw);
    InjectedFailure(s0, steps, hw);
    ControlByteLast(s.ec, t, k);
    ControlByteLast(s.ec, t, k + 1);
  }

  /** A write whose packet landed in full fails only at the injected failure point. */
  lemma {:induction false} InjectedFailure(s: State, steps: seq<Step>, hw: Hardware)
    requires !s.dryRun && s.writeCount == 0
    ensures var r := RunSteps(s, steps, hw);
      && (r.status == Ok && steps != [] ==> s.failAfter == 0 || |steps| < s.failAfter)
      && (r.status != Ok && hw.send(r.done).Landed? ==> s.failAfter == r.done + 1)
      && (r.status != Ok && s.failAfter > 0 ==> r.done + 1 <= s.failAfter)
  {
    if steps != [] {
      var front := steps[..|steps| - 1];
      InjectedFailure(s, front, hw);
      RunStepsConsistent(s, front, hw);
    }
  }

  lemma {:induction false} AllLanded(s: State, steps: seq<Step>, hw: Hardware)
    requires !s.dryRun && s.failAfter == 0 && forall k: nat | k < |steps| :: hw.send(k) == Landed
    ensures RunSteps(s, steps, hw).status == Ok
  {
    if steps != [] {
      AllLanded(s, steps[..|steps| - 1], hw);
      RunStepsConsistent(s, steps[..|steps| - 1], hw);
    }
  }

  lemma LastReplyLost(s: State, steps: seq<Step>, hw: Hardware)
    requires !s.dryRun && s.failAfter == 0 && steps != [] && hw.send(|steps| - 1).ReplyLost?
    requires forall k: nat | k < |steps| - 1 :: hw.send(k) == Landed
    ensures var r := RunSteps(s, steps, hw); r.status != Ok && r.state.ec == StepEffects(s.ec, steps)
  {
    var front := steps[..|steps| - 1];
    AllLanded(s, front, hw);
    RunStepsConsistent(s, front, hw);
    RunStepsConsistent(s, steps, hw);
    assert steps[..|steps|] == steps;
  }

  /** A failure that is none: when only the reply to the last write is lost, the apply fails and the shadow keeps the
      old table, but the EC holds the whole new one. */
  lemma LostReplyProgramsAnyway(s: State, hw: Hardware, name: string, t: FanTable, incoming: Result)
    requires Programs(hw, name, t) && !s.dryRun && s.failAfter == 0
    requires var last := |PlanSteps(FanProgram(t))| - 1;
      last >= 0 && hw.send(last).ReplyLost? && forall k: nat | k < last :: hw.send(k) == Landed
    ensures var r := SetFanTable(s, hw, name, incoming);
      && r.status != Ok && r.next.shadow == s.shadow
      && Encodes(ReadImage(r.next.ec), t) && r.next.ec == Effects(s.ec, FanProgram(t))
  {
    PlanStepsExist(t);
    var steps := PlanSteps(FanProgram(t));
    LastReplyLost(s.(writeCount := 0), steps, hw);
    SetFanTableKeeps(s, hw, name, incoming);
    PlanStepsEffects(s.ec, FanProgram(t));
    FanProgramCorrect(s.ec, t);
  }

  /** A dry run touches no EC byte, whatever its outcome. */
  lemma FanTableDryRun(s: State, hw: Hardware, name: string, incoming: Result)
    requires s.dryRun
    ensures SetFanTable(s, hw, name, incoming).next.ec == s.ec
  {
    if name != "" && hw.load(name).Found? && ValidationStatus(hw.load(name).table) == Ok {
      var t := hw.load(name).table;
      PlanStepsExist(t);
      RunStepsConsistent(s.(writeCount := 0), PlanSteps(FanProgram(t)), hw);
    }
  }
}
