// What the firmware finds in 0xF00..0xF5F, and the theorem that the compiled program puts the
// table there and touches nothing else.
module FanImage {
  import opened Types
  import opened Plans
  import opened EcMemory
  import opened FanTables
  import opened PlanBuilders

  /** The fan region as the firmware reads it: six columns cut short by the three tail bytes. */
  datatype Image = Image(
    cpuUp: seq<byte>, cpuDown: seq<byte>, cpuDuty: seq<byte>,
    gpuUp: seq<byte>, gpuDown: seq<byte>, gpuDuty: seq<byte>,
    status1: byte, status2: byte, control: byte)

  function ReadImage(mem: Memory): Image
  {
    Image(mem[0x0F00..0x0F10], mem[0x0F10..0x0F20], mem[0x0F20..0x0F30],
          mem[0x0F30..0x0F40], mem[0x0F40..0x0F50], mem[0x0F50..0x0F5D],
          mem[0x0F5D], mem[0x0F5E], mem[0x0F5F])
  }

  ghost predicate Encodes(image: Image, t: FanTable)
  {
    && |image.cpuUp| == 16 && |image.cpuDown| == 16 && |image.cpuDuty| == 16
    && |image.gpuUp| == 16 && |image.gpuDown| == 16 && |image.gpuDuty| == 13
    && (forall i | 0 <= i < 16 ::
          t.cpu[i] == FanPoint(image.cpuUp[i], image.cpuDown[i], image.cpuDuty[i]))
    && (forall i | 0 <= i < 16 :: t.gpu[i].up == image.gpuUp[i] && t.gpu[i].down == image.gpuDown[i])
    && (forall i | 0 <= i < 13 :: t.gpu[i].duty == image.gpuDuty[i])
    && (image.status1 == 1 <==> t.activated) && image.status1 in {0, 1}
    && (image.status2 == 1 <==> t.respective) && image.status2 in {0, 1}
    && image.control == (if t.activated then image.status1 + 2 * image.status2 else 0)
  }

  predicate InFanRegion(addr: u16) { 0x0F00 <= addr <= 0x0F5F }

  /** The columns of a partly run head, each at its own base. */
  lemma HeadEffects(mem: Memory, t: FanTable)
    ensures var m := Effects(mem, FanHead(t));
      && m[0x0F00..0x0F10] == Ups(t.cpu) && m[0x0F10..0x0F20] == Downs(t.cpu) && m[0x0F20..0x0F30] == Duties(t.cpu)
      && m[0x0F30..0x0F40] == Ups(t.gpu) && m[0x0F40..0x0F50] == Downs(t.gpu)
      && m[0x0F50..0x0F5D] == Duties(t.gpu)[..13]
    ensures forall addr: u16 :: Touches(FanHead(t), addr) <==> 0x0F00 <= addr < 0x0F5D
  {
    var p0 := [Stage(FanThread), Stage(FanCpu)];
    var p1 := p0 + Column(CPU_UP_BASE, Ups(t.cpu), CpuUp);
    var p2 := p1 + Column(CPU_DOWN_BASE, Downs(t.cpu), CpuDown);
    var p3 := p2 + Column(CPU_DUTY_BASE, Duties(t.cpu), CpuDuty);
    var p4 := p3 + [Stage(FanGpu)];
    var p5 := p4 + Column(GPU_UP_BASE, Ups(t.gpu), GpuUp);
    var p6 := p5 + Column(GPU_DOWN_BASE, Downs(t.gpu), GpuDown);
    var m1 := AddColumn(mem, p0, CPU_UP_BASE, Ups(t.cpu), CpuUp);
    var m2 := AddColumn(mem, p1, CPU_DOWN_BASE, Downs(t.cpu), CpuDown);
    var m3 := AddColumn(mem, p2, CPU_DUTY_BASE, Duties(t.cpu), CpuDuty);
    AddStage(mem, p3, FanGpu);
    var m5 := AddColumn(mem, p4, GPU_UP_BASE, Ups(t.gpu), GpuUp);
    var m6 := AddColumn(mem, p5, GPU_DOWN_BASE, Downs(t.gpu), GpuDown);
    var m7 := AddColumn(mem, p6, GPU_DUTY_BASE, Duties(t.gpu)[..13], GpuDuty);
    assert m7[0x0F00..0x0F10] == m1[0x0F00..0x0F10];
    assert m7[0x0F10..0x0F20] == m2[0x0F10..0x0F20];
    assert m7[0x0F20..0x0F30] == m3[0x0F20..0x0F30];
    assert m7[0x0F30..0x0F40] == m5[0x0F30..0x0F40];
    assert m7[0x0F40..0x0F50] == m6[0x0F40..0x0F50];
  }

  lemma AddStage(mem: Memory, prefix: seq<Action>, title: Title)
    ensures Effects(mem, prefix + [Stage(title)]) == Effects(mem, prefix)
    ensures forall addr: u16 :: Touches(prefix + [Stage(title)], addr) <==> Touches(prefix, addr)
  {
    var whole := prefix + [Stage(title)];
    assert whole[..|whole| - 1] == prefix;
    TouchesConcat(prefix, [Stage(title)]);
  }

  lemma TouchesConcat(a: seq<Action>, b: seq<Action>)
    ensures forall addr: u16 :: Touches(a + b, addr) <==> Touches(a, addr) || Touches(b, addr)
  {
    forall addr: u16
      ensures Touches(a + b, addr) <==> Touches(a, addr) || Touches(b, addr)
    {
      if Touches(a, addr) {
        var i :| 0 <= i < |a| && Writes(a[i], addr);
        assert Writes((a + b)[i], addr);
      }
      if Touches(b, addr) {
        var i :| 0 <= i < |b| && Writes(b[i], addr);
        assert Writes((a + b)[|a| + i], addr);
      }
    }
  }

  lemma AddColumn(mem: Memory, prefix: seq<Action>, base: u16, values: seq<byte>, title: Title) returns (m: Memory)
    requires base + |values| <= 0x1_0000
    ensures m == Effects(mem, prefix + Column(base, values, title))
    ensures m[base..base + |values|] == values
    ensures forall k | 0 <= k < 0x1_0000 && !(base <= k < base + |values|) :: m[k] == Effects(mem, prefix)[k]
    ensures forall addr: u16 :: Touches(prefix + Column(base, values, title), addr) <==>
      Touches(prefix, addr) || base <= addr < base + |values|
  {
    var column := Column(base, values, title);
    m := Effects(mem, prefix + column);
    EffectsConcat(mem, prefix, column);
    ColumnEffects(Effects(mem, prefix), base, values, title);
    TouchesConcat(prefix, column);
    forall k | 0 <= k < 0x1_0000 && !(base <= k < base + |values|)
      ensures m[k] == Effects(mem, prefix)[k]
    {
      EffectsFrame(Effects(mem, prefix), column, k);
    }
  }

  /** Compiler correctness: after the program the fan region encodes the table, and every other byte is as before. */
  lemma FanProgramCorrect(mem: Memory, t: FanTable)
    ensures Encodes(ReadImage(Effects(mem, FanProgram(t))), t)
    ensures forall addr: u16 :: Touches(FanProgram(t), addr) <==> InFanRegion(addr)
    ensures forall addr: u16 | !InFanRegion(addr) :: Effects(mem, FanProgram(t))[addr] == mem[addr]
  {
    HeadEffects(mem, t);
    var head, tail := FanHead(t), FanStatusTail(t);
    var last := [EcWrite(TABLE_CONTROL, TailControl(t), TableControl)];
    EffectsConcat(mem, head, tail);
    EffectsConcat(mem, head + tail, last);
    TouchesConcat(head, tail);
    TouchesConcat(head + tail, last);
    var m := Effects(mem, head);
    assert Effects(mem, head + tail) == m[0x0F5D := TailStatus1(t)][0x0F5E := TailStatus2(t)] by {
      TailEffects(m, t);
    }
    assert Effects(Effects(mem, head + tail), last) == Effects(mem, head + tail)[0x0F5F := TailControl(t)] by {
      assert last[..|last| - 1] == [];
    }
    var image := ReadImage(Effects(mem, FanProgram(t)));
    assert image.cpuUp == Ups(t.cpu) && image.cpuDown == Downs(t.cpu) && image.cpuDuty == Duties(t.cpu);
    assert image.gpuUp == Ups(t.gpu) && image.gpuDown == Downs(t.gpu) && image.gpuDuty == Duties(t.gpu)[..13];
    assert Writes(last[0], TABLE_CONTROL) && Writes(tail[1], TABLE_STATUS1) && Writes(tail[2], TABLE_STATUS2);
    forall addr: u16 | !InFanRegion(addr)
      ensures Effects(mem, FanProgram(t))[addr] == mem[addr]
    {
      EffectsFrame(mem, FanProgram(t), addr);
    }
  }

  lemma TailEffects(m: Memory, t: FanTable)
    ensures Effects(m, FanStatusTail(t)) == m[0x0F5D := TailStatus1(t)][0x0F5E := TailStatus2(t)]
  {
    var tail := FanStatusTail(t);
    assert tail[..2] == [tail[0], tail[1]] && tail[..2][..1] == [tail[0]] && [tail[0]][..0] == [];
    assert Effects(m, [tail[0]]) == m;
    assert Effects(m, tail[..2]) == m[0x0F5D := TailStatus1(t)];
  }

  /** The image determines the table except its name, the last three GPU duties and nothing else. */
  lemma ImageDeterminesTable(image: Image, t: FanTable, u: FanTable)
    requires Encodes(image, t) && Encodes(image, u)
    ensures t.activated == u.activated && t.respective == u.respective && t.cpu == u.cpu
    ensures forall i | 0 <= i < 16 ::
      t.gpu[i].up == u.gpu[i].up && t.gpu[i].down == u.gpu[i].down && (i < 13 ==> t.gpu[i].duty == u.gpu[i].duty)
  {
    assert forall i | 0 <= i < 16 :: t.cpu[i] == u.cpu[i];
  }

  /** All writes of a profile plan go to different addresses, part by part. */
  lemma PartsAreDisjoint(d: ProfileDocument)
    ensures forall addr: u16 :: !Touches(ModePart(d), addr)
    ensures forall addr: u16 :: !(Touches(PowerPart(d), addr) && Touches(FanPart(d), addr))
  {
    FanProgramCorrect(seq(0x1_0000, _ => 0), d.fan);
    forall addr: u16
      ensures !(Touches(PowerPart(d), addr) && Touches(FanPart(d), addr))
    {
      if Touches(PowerPart(d), addr) {
        var i :| 0 <= i < |PowerPart(d)| && Writes(PowerPart(d)[i], addr);
        assert addr in {PL1, PL2, PL4, TCC_OFFSET};
      }
    }
  }

  /** A profile plan's effect is its parts' effects in either order. */
  lemma ProfilePartsCommute(mem: Memory, d: ProfileDocument)
    ensures Effects(mem, ModePart(d) + PowerPart(d) + FanPart(d)) ==
      Effects(mem, FanPart(d) + PowerPart(d) + ModePart(d))
    ensures Effects(mem, ModePart(d) + PowerPart(d) + FanPart(d)) == Effects(Effects(mem, PowerPart(d)), FanPart(d))
  {
    PartsAreDisjoint(d);
    var m, p, f := ModePart(d), PowerPart(d), FanPart(d);
    EffectsConcat(mem, m + p, f);
    EffectsConcat(mem, m, p);
    EffectsConcat(mem, f + p, m);
    EffectsCommute(mem, p, f);
    EffectsConcat(mem, p, f);
    forall any: Memory
      ensures Effects(any, m) == any
    {
      forall k | 0 <= k < 0x1_0000
        ensures Effects(any, m)[k] == any[k]
      {
        EffectsFrame(any, m, k);
      }
    }
  }

  // ----- no address is written twice

  /** The writes go to ever higher addresses, all from `low` up to `high`. */
  ghost predicate Ascending(actions: seq<Action>, low: int, high: int)
  {
    && (forall i, x: u16 | 0 <= i < |actions| && Writes(actions[i], x) :: low <= x < high)
    && (forall i, j, x: u16, y: u16 | 0 <= i < j < |actions| && Writes(actions[i], x) && Writes(actions[j], y) :: x < y)
  }

  lemma AscendingConcat(a: seq<Action>, b: seq<Action>, low: int, middle: int, high: int)
    requires low <= middle <= high && Ascending(a, low, middle) && Ascending(b, middle, high)
    ensures Ascending(a + b, low, high)
  {
    var c := a + b;
    forall i, x: u16 | 0 <= i < |c| && Writes(c[i], x)
      ensures low <= x < high && (i < |a| ==> x < middle) && (i >= |a| ==> middle <= x)
    {
      if i < |a| {
        assert c[i] == a[i];
      } else {
        assert c[i] == b[i - |a|];
      }
    }
    forall i, j, x: u16, y: u16 | 0 <= i < j < |c| && Writes(c[i], x) && Writes(c[j], y)
      ensures x < y
    {
      if j < |a| {
        assert c[i] == a[i] && c[j] == a[j];
      } else if i >= |a| {
        assert c[i] == b[i - |a|] && c[j] == b[j - |a|];
      }
    }
  }

  lemma AscendingColumn(base: u16, values: seq<byte>, title: Title)
    requires base + |values| <= 0x1_0000
    ensures Ascending(Column(base, values, title), base, base + |values|)
  {
  }

  lemma AscendingSilent(actions: seq<Action>, low: int)
    requires forall a | a in actions :: a.Stage?
    ensures Ascending(actions, low, low)
  {
    forall i, x: u16 | 0 <= i < |actions|
      ensures !Writes(actions[i], x)
    {
      assert actions[i] in actions;
    }
  }

  lemma AscendingTail(t: FanTable)
    ensures Ascending(FanStatusTail(t), 0x0F5D, 0x0F5F)
    ensures Ascending([EcWrite(TABLE_CONTROL, TailControl(t), TableControl)], 0x0F5F, 0x0F60)
  {
  }

  lemma FanHeadAscends(t: FanTable)
    ensures Ascending(FanHead(t), 0x0F00, 0x0F5D)
  {
    var p0 := [Stage(FanThread), Stage(FanCpu)];
    AscendingSilent(p0, 0x0F00);
    var p1 := p0 + Column(CPU_UP_BASE, Ups(t.cpu), CpuUp);
    AscendingColumn(CPU_UP_BASE, Ups(t.cpu), CpuUp);
    AscendingConcat(p0, Column(CPU_UP_BASE, Ups(t.cpu), CpuUp), 0x0F00, 0x0F00, 0x0F10);
    var p2 := p1 + Column(CPU_DOWN_BASE, Downs(t.cpu), CpuDown);
    AscendingColumn(CPU_DOWN_BASE, Downs(t.cpu), CpuDown);
    AscendingConcat(p1, Column(CPU_DOWN_BASE, Downs(t.cpu), CpuDown), 0x0F00, 0x0F10, 0x0F20);
    var p3 := p2 + Column(CPU_DUTY_BASE, Duties(t.cpu), CpuDuty);
    AscendingColumn(CPU_DUTY_BASE, Duties(t.cpu), CpuDuty);
    AscendingConcat(p2, Column(CPU_DUTY_BASE, Duties(t.cpu), CpuDuty), 0x0F00, 0x0F20, 0x0F30);
    var p4 := p3 + [Stage(FanGpu)];
    AscendingSilent([Stage(FanGpu)], 0x0F30);
    AscendingConcat(p3, [Stage(FanGpu)], 0x0F00, 0x0F30, 0x0F30);
    GpuColumnsAscend(p4, t);
  }

  lemma GpuColumnsAscend(p4: seq<Action>, t: FanTable)
    requires Ascending(p4, 0x0F00, 0x0F30)
    ensures Ascending(p4 + Column(GPU_UP_BASE, Ups(t.gpu), GpuUp) + Column(GPU_DOWN_BASE, Downs(t.gpu), GpuDown)
                      + Column(GPU_DUTY_BASE, Duties(t.gpu)[..13], GpuDuty), 0x0F00, 0x0F5D)
  {
    var p5 := p4 + Column(GPU_UP_BASE, Ups(t.gpu), GpuUp);
    AscendingColumn(GPU_UP_BASE, Ups(t.gpu), GpuUp);
    AscendingConcat(p4, Column(GPU_UP_BASE, Ups(t.gpu), GpuUp), 0x0F00, 0x0F30, 0x0F40);
    var p6 := p5 + Column(GPU_DOWN_BASE, Downs(t.gpu), GpuDown);
    AscendingColumn(GPU_DOWN_BASE, Downs(t.gpu), GpuDown);
    AscendingConcat(p5, Column(GPU_DOWN_BASE, Downs(t.gpu), GpuDown), 0x0F00, 0x0F40, 0x0F50);
    AscendingColumn(GPU_DUTY_BASE, Duties(t.gpu)[..13], GpuDuty);
    AscendingConcat(p6, Column(GPU_DUTY_BASE, Duties(t.gpu)[..13], GpuDuty), 0x0F00, 0x0F50, 0x0F5D);
  }

  lemma FanProgramAscends(t: FanTable)
    ensures Ascending(FanProgram(t), 0x0F00, 0x0F60)
  {
    FanHeadAscends(t);
    AscendingTail(t);
    AscendingConcat(FanHead(t), FanStatusTail(t), 0x0F00, 0x0F5D, 0x0F5F);
    AscendingConcat(FanHead(t) + FanStatusTail(t), [EcWrite(TABLE_CONTROL, TailControl(t), TableControl)], 0x0F00,
                    0x0F5F, 0x0F60);
  }

  /** The writes of a whole profile plan go to ever higher addresses, so no address is written twice. */
  lemma ProfilePlanAscends(d: ProfileDocument)
    ensures Ascending(ModePart(d) + PowerPart(d) + FanPart(d), 0x0783, 0x0F60)
  {
    AscendingSilent(ModePart(d), 0x0783);
    PowerPartAscends(d);
    AscendingConcat(ModePart(d), PowerPart(d), 0x0783, 0x0783, 0x0F00);
    FanProgramAscends(d.fan);
    AscendingConcat(ModePart(d) + PowerPart(d), FanPart(d), 0x0783, 0x0F00, 0x0F60);
  }

  lemma PowerPartAscends(d: ProfileDocument)
    ensures Ascending(PowerPart(d), 0x0783, 0x0F00)
  {
    if d.hasPower {
      var l := d.power;
      var p0 := [Stage(PowerStage)];
      AscendingSilent(p0, 0x0783);
      OneLimitAscends(l, Pl1);
      AscendingConcat(p0, PowerWrite(l, Pl1), 0x0783, 0x0783, 0x0784);
      OneLimitAscends(l, Pl2);
      AscendingConcat(p0 + PowerWrite(l, Pl1), PowerWrite(l, Pl2), 0x0783, 0x0784, 0x0785);
      OneLimitAscends(l, Pl4);
      AscendingConcat(p0 + PowerWrite(l, Pl1) + PowerWrite(l, Pl2), PowerWrite(l, Pl4), 0x0783, 0x0785, 0x0786);
      OneLimitAscends(l, Tcc);
      AscendingConcat(p0 + PowerWrite(l, Pl1) + PowerWrite(l, Pl2) + PowerWrite(l, Pl4), PowerWrite(l, Tcc), 0x0783,
                      0x0786, 0x0787);
    }
  }

  lemma OneLimitAscends(l: PowerLimits, f: PowerField)
    ensures Ascending(PowerWrite(l, f), PowerAddress(f), PowerAddress(f) + 1)
  {
  }
}
