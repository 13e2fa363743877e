// The embedded-controller byte map (src/backends/amw0/ec-addr-map.h) and what a write program
// does to it.
module EcMemory {
  import opened Types
  import opened Plans

  const MODE_CONTROL: u16 := 0x0751
  const MODE_INDEX: u16 := 0x07AB
  const PL1: u16 := 0x0783
  const PL2: u16 := 0x0784
  const PL4: u16 := 0x0785
  const TCC_OFFSET: u16 := 0x0786
  const CPU_UP_BASE: u16 := 0x0F00
  const CPU_DOWN_BASE: u16 := 0x0F10
  const CPU_DUTY_BASE: u16 := 0x0F20
  const GPU_UP_BASE: u16 := 0x0F30
  const GPU_DOWN_BASE: u16 := 0x0F40
  const GPU_DUTY_BASE: u16 := 0x0F50
  const TABLE_STATUS1: u16 := 0x0F5D
  const TABLE_STATUS2: u16 := 0x0F5E
  const TABLE_CONTROL: u16 := 0x0F5F
  const FFAN: u16 := 0x0460
  const CPUT: u16 := 0x0E0D
  const PCHT: u16 := 0x0E0E

  type Memory = m: seq<byte> | |m| == 0x1_0000 witness seq(0x1_0000, _ => 0)

  function PowerAddress(f: PowerField): u16
  {
    match f
    case Pl1 => PL1
    case Pl2 => PL2
    case Pl4 => PL4
    case Tcc => TCC_OFFSET
  }

  /** One action's stores when every write lands. */
  function Effect(mem: Memory, action: Action): Memory
  {
    match action
    case Stage(_) => mem
    case CustomMode(enabled, _) => if enabled then mem[MODE_INDEX as int := 3][MODE_CONTROL as int := 0xA0] else mem
    case EcWrite(addr, value, _) => mem[addr as int := value]
  }

  function Effects(mem: Memory, actions: seq<Action>): Memory
  {
    if actions == [] then mem
    else Effect(Effects(mem, actions[..|actions| - 1]), actions[|actions| - 1])
  }

  predicate Writes(action: Action, addr: u16)
  {
    match action
    case Stage(_) => false
    case CustomMode(enabled, _) => enabled && (addr == MODE_INDEX || addr == MODE_CONTROL)
    case EcWrite(a, _, _) => a == addr
  }

  ghost predicate Touches(actions: seq<Action>, addr: u16)
  {
    exists i | 0 <= i < |actions| :: Writes(actions[i], addr)
  }

  lemma {:induction false} EffectsConcat(mem: Memory, a: seq<Action>, b: seq<Action>)
    ensures Effects(mem, a + b) == Effects(Effects(mem, a), b)
  {
    if b == [] {
      assert a + b == a;
    } else {
      var front := b[..|b| - 1];
      assert (a + b)[..|a + b| - 1] == a + front;
      EffectsConcat(mem, a, front);
    }
  }

  /** Framing: an address no action writes keeps its byte. */
  lemma {:induction false} EffectsFrame(mem: Memory, actions: seq<Action>, addr: u16)
    requires !Touches(actions, addr)
    ensures Effects(mem, actions)[addr] == mem[addr]
  {
    if actions != [] {
      var front := actions[..|actions| - 1];
      assert forall i | 0 <= i < |front| :: front[i] == actions[i];
      EffectsFrame(mem, front, addr);
      assert !Writes(actions[|actions| - 1], addr);
    }
  }

  /** The byte at an address depends only on the memory before at that address and on the program. */
  lemma {:induction false} EffectsPointwise(m1: Memory, m2: Memory, actions: seq<Action>, addr: u16)
    requires m1[addr] == m2[addr] || Touches(actions, addr)
    ensures Effects(m1, actions)[addr] == Effects(m2, actions)[addr]
  {
    if actions != [] {
      var front := actions[..|actions| - 1];
      if !Writes(actions[|actions| - 1], addr) {
        if Touches(actions, addr) {
          var i :| 0 <= i < |actions| && Writes(actions[i], addr);
          assert Writes(front[i], addr);
        }
        EffectsPointwise(m1, m2, front, addr);
      }
    }
  }

  /** Programs over disjoint addresses commute. */
  lemma EffectsCommute(mem: Memory, a: seq<Action>, b: seq<Action>)
    requires forall addr: u16 :: !(Touches(a, addr) && Touches(b, addr))
    ensures Effects(mem, a + b) == Effects(mem, b + a)
  {
    EffectsConcat(mem, a, b);
    EffectsConcat(mem, b, a);
    var ab, ba := Effects(mem, a + b), Effects(mem, b + a);
    forall k: u16 | 0 <= k < 0x1_0000
      ensures ab[k] == ba[k]
    {
      if Touches(a, k) {
        EffectsFrame(Effects(mem, a), b, k);
        EffectsPointwise(mem, Effects(mem, b), a, k);
      } else {
        EffectsFrame(Effects(mem, b), a, k);
        EffectsFrame(mem, a, k);
        EffectsPointwise(mem, Effects(mem, a), b, k);
      }
    }
    assert forall k | 0 <= k < |ab| :: ab[k] == ba[k] by {
      forall k | 0 <= k < |ab| ensures ab[k] == ba[k] {
        var j: u16 := k;
        assert ab[j] == ba[j];
      }
    }
  }

  /** A run of writes to consecutive addresses. */
  function Column(base: u16, values: seq<byte>, title: Title): (actions: seq<Action>)
    requires base + |values| <= 0x1_0000
    ensures |actions| == |values|
  {
    seq(|values|, i requires 0 <= i < |values| => EcWrite(base + i, values[i], title))
  }

  lemma {:induction false} ColumnEffects(mem: Memory, base: u16, values: seq<byte>, title: Title)
    requires base + |values| <= 0x1_0000
    ensures forall i | 0 <= i < |values| :: Effects(mem, Column(base, values, title))[base + i] == values[i]
    ensures forall addr: u16 :: Touches(Column(base, values, title), addr) <==> base <= addr < base + |values|
  {
    var column := Column(base, values, title);
    forall addr: u16
      ensures Touches(column, addr) <==> base <= addr < base + |values|
    {
      if base <= addr < base + |values| {
        assert Writes(column[addr - base], addr);
      }
    }
    if values != [] {
      var front := values[..|values| - 1];
      assert column[..|column| - 1] == Column(base, front, title);
      ColumnEffects(mem, base, front, title);
    }
  }
}
