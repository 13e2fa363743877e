// The AMW0 backend (src/backends/amw0/backend.c): a shadow copy of EC-backed state, read-modify-write
// of the mode/boost byte at 0x751, and the interpreter for fan programs.
module Amw0 {
  import opened Types
  import opened Plans
  import opened EcMemory
  import opened FanTables
  import opened Packets
  import opened Backends

  // ----- the control byte at 0x751

  predicate CustomBit(c: byte) { c / 0x80 % 2 == 1 }
  predicate BoostBit(c: byte) { c / 0x40 % 2 == 1 }
  predicate HiModeBit(c: byte) { c / 0x20 % 2 == 1 }
  predicate TurboBit(c: byte) { c / 0x10 % 2 == 1 }

  /** `c | 0x40` or `c & ~0x40` */
  function WithBoost(c: byte, enabled: bool): byte
  {
    if BoostBit(c) == enabled then c else if enabled then c + 0x40 else c - 0x40
  }

  function ModeControl(mode: Mode): byte
  {
    match mode
    case Gaming => 0x20
    case Office => 0x00
    case Turbo => 0x10
    case Custom => 0xA0
  }

  function ModeIndex(mode: Mode): byte
  {
    match mode
    case Gaming => 0
    case Office => 1
    case Turbo => 2
    case Custom => 3
  }

  function DecodeMode(c: byte): Mode
  {
    if CustomBit(c) then Custom
    else if TurboBit(c) then Turbo
    else if HiModeBit(c) then Gaming
    else Office
  }

  function AliasToMode(name: string): Option<Mode>
  {
    if name == "gaming" || name == "balanced" then Some(Gaming)
    else if name == "office" || name == "low-power" then Some(Office)
    else if name == "turbo" || name == "performance" then Some(Turbo)
    else if name == "custom" then Some(Custom)
    else None
  }

  // ----- the environment of one call

  /** How one transport send ends. The call node is opened again to read the reply, so a send can
      be reported as failed after its packet reached the firmware. */
  datatype Send = Landed | Refused(error: Failure) | ReplyLost(error: Failure)

  /** What `lcc_fan_table_load_named` finds for a name. */
  datatype Loaded = Missing(error: Failure) | Found(table: FanTable)

  /** Which EC bytes can be read during the call, how its k-th transport send ends, and the fan table files. */
  datatype Hardware = Hardware(readable: u16 -> bool, send: nat -> Send, load: string -> Loaded)

  datatype State = State(
    dryRun: bool,
    failAfter: nat,
    writeCount: nat,
    hasControl: bool,
    control: byte,
    shadow: Snapshot,
    ec: Memory)

  predicate Live(s: State, hw: Hardware, addr: u16)
  {
    !s.dryRun && hw.readable(addr)
  }

  // ----- writing

  /** `write_ec_byte`: the injected failure point, then the transport. */
  function WriteByte(s: State, addr: u16, value: byte, send: Send): (State, Status)
  {
    var counted := s.(writeCount := s.writeCount + 1);
    if s.failAfter > 0 && counted.writeCount >= s.failAfter then (counted, IoError)
    else if s.dryRun then (counted, Ok)
    else match send
      case Landed => (counted.(ec := s.ec[addr as int := value]), Ok)
      case Refused(error) => (counted, error)
      case ReplyLost(error) => (counted.(ec := s.ec[addr as int := value]), error)
  }

  /** One byte of a write sequence, the stage it is reported under and the detail of its failure. */
  datatype Step = Step(addr: u16, value: byte, stage: string, detail: string)

  datatype Run = Run(state: State, status: Status, done: nat)

  /** A write sequence stops at its first failing write. */
  function RunSteps(s: State, steps: seq<Step>, hw: Hardware): (r: Run)
    ensures r.done <= |steps| && (r.status == Ok <==> r.done == |steps|)
  {
    if steps == [] then Run(s, Ok, 0)
    else
      var last := |steps| - 1;
      var r := RunSteps(s, steps[..last], hw);
      if r.status != Ok then r
      else
        var (next, status) := WriteByte(r.state, steps[last].addr, steps[last].value, hw.send(last));
        Run(next, status, if status == Ok then last + 1 else last)
  }

  function StepEffects(mem: Memory, steps: seq<Step>): Memory
  {
    if steps == [] then mem
    else
      var last := steps[|steps| - 1];
      StepEffects(mem, steps[..|steps| - 1])[last.addr as int := last.value]
  }

  /** The injected failure stops the `k`-th further write before it is sent. */
  predicate Injected(s: State, k: nat) { s.failAfter > 0 && s.writeCount + k + 1 >= s.failAfter }

  /** How many writes of a sequence that failed at its `k`-th are in EC memory: that one too exactly when it was sent
      and only its reply was lost. */
  function Reached(s: State, hw: Hardware, k: nat): nat
  {
    if hw.send(k).ReplyLost? && !Injected(s, k) then k + 1 else k
  }

  /** Crash consistency of any write sequence: which writes are in EC memory; nothing else of the state moves but the
      counter. */
  lemma {:induction false} RunStepsConsistent(s: State, steps: seq<Step>, hw: Hardware)
    ensures var r := RunSteps(s, steps, hw);
      && r.state == s.(writeCount := r.state.writeCount, ec := r.state.ec)
      && r.state.writeCount == s.writeCount + (if r.status == Ok then r.done else r.done + 1)
      && (s.dryRun ==> r.state.ec == s.ec)
      && (!s.dryRun && r.status == Ok ==> r.state.ec == StepEffects(s.ec, steps))
      && (!s.dryRun && r.status != Ok ==> r.state.ec == StepEffects(s.ec, steps[..Reached(s, hw, r.done)]))
  {
    if steps != [] {
      var last := |steps| - 1;
      var front := steps[..last];
      RunStepsConsistent(s, front, hw);
      var r := RunSteps(s, front, hw);
      if r.status != Ok {
        assert steps[..Reached(s, hw, r.done)] == front[..Reached(s, hw, r.done)];
      } else {
        assert steps[..last + 1] == steps;
      }
    }
  }

  lemma {:induction false} RunStepsFailed(s: State, a: seq<Step>, b: seq<Step>, hw: Hardware)
    requires RunSteps(s, a, hw).status != Ok
    ensures RunSteps(s, a + b, hw) == RunSteps(s, a, hw)
  {
    if b == [] {
      assert a + b == a;
    } else {
      var front := b[..|b| - 1];
      assert (a + b)[..|a + b| - 1] == a + front;
      RunStepsFailed(s, a, front, hw);
    }
  }

  lemma RunStepsSnoc(s: State, steps: seq<Step>, last: Step, hw: Hardware)
    ensures var r := RunSteps(s, steps, hw); var r' := RunSteps(s, steps + [last], hw);
      if r.status != Ok then r' == r
      else var (next, status) := WriteByte(r.state, last.addr, last.value, hw.send(|steps|));
        r' == Run(next, status, if status == Ok then |steps| + 1 else |steps|)
  {
    assert (steps + [last])[..|steps + [last]| - 1] == steps;
  }

  // ----- fan programs

  function FanFailed(): string { "amw0 fan table programming failed" }

  /** The writes of one action under the stage in force. */
  function ActionSteps(action: Action, stage: string): seq<Step>
  {
    match action
    case Stage(_) => []
    case CustomMode(enabled, _) =>
      if enabled then [Step(MODE_INDEX, 3, "custom-enable", FanFailed()),
                       Step(MODE_CONTROL, 0xA0, "custom-enable", FanFailed())]
      else []
    case EcWrite(addr, value, _) => [Step(addr, value, stage, FanFailed())]
  }

  /** The write sequence of a plan, each write under the last stage label before it. */
  function PlanSteps(actions: seq<Action>): seq<Step>
  {
    if actions == [] then []
    else
      var front := actions[..|actions| - 1];
      PlanSteps(front) + ActionSteps(actions[|actions| - 1], CurrentStage(front))
  }

  function CurrentStage(actions: seq<Action>): string
  {
    if actions == [] then "fan-apply"
    else match actions[|actions| - 1]
      case Stage(title) => Label(title)
      case _ => CurrentStage(actions[..|actions| - 1])
  }

  lemma {:induction false} StepEffectsConcat(mem: Memory, a: seq<Step>, b: seq<Step>)
    ensures StepEffects(mem, a + b) == StepEffects(StepEffects(mem, a), b)
  {
    if b == [] {
      assert a + b == a;
    } else {
      var front := b[..|b| - 1];
      assert (a + b)[..|a + b| - 1] == a + front;
      StepEffectsConcat(mem, a, front);
    }
  }

  lemma ActionStepsEffect(mem: Memory, action: Action, stage: string)
    ensures StepEffects(mem, ActionSteps(action, stage)) == Effect(mem, action)
  {
    var steps := ActionSteps(action, stage);
    if steps != [] {
      assert steps[..1] == [steps[0]] && steps[..0] == [] && [steps[0]][..0] == [];
      assert StepEffects(mem, [steps[0]]) == mem[steps[0].addr as int := steps[0].value];
    }
  }

  /** The write sequence does to memory what the plan means. */
  lemma {:induction false} PlanStepsEffects(mem: Memory, actions: seq<Action>)
    ensures StepEffects(mem, PlanSteps(actions)) == Effects(mem, actions)
  {
    if actions != [] {
      var front, action := actions[..|actions| - 1], actions[|actions| - 1];
      PlanStepsEffects(mem, front);
      StepEffectsConcat(mem, PlanSteps(front), ActionSteps(action, CurrentStage(front)));
      ActionStepsEffect(Effects(mem, front), action, CurrentStage(front));
    }
  }
}
