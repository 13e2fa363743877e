// Fan tables and their validation (src/core/fan/table.c).
module FanTables {
  import opened Types

  const POINTS: nat := 16

  datatype FanPoint = FanPoint(up: byte, down: byte, duty: byte)

  const ZERO_POINT := FanPoint(0, 0, 0)

  type Curve = c: seq<FanPoint> | |c| == 16 witness seq(16, _ => ZERO_POINT)

  datatype FanTable = FanTable(name: Text32, activated: bool, respective: bool, cpu: Curve, gpu: Curve)

  predicate PointBelow(p: FanPoint, q: FanPoint)
  {
    p.up <= q.up && p.down <= q.down && p.duty <= q.duty
  }

  predicate PointLegal(p: FanPoint)
  {
    p.down <= p.up && p.duty <= 100
  }

  /** What a fan table promises: legal points, and each curve monotone between any two points. */
  ghost predicate CurveValid(c: seq<FanPoint>)
  {
    && (forall i | 0 <= i < |c| :: PointLegal(c[i]))
    && (forall i, j | 0 <= i <= j < |c| :: PointBelow(c[i], c[j]))
  }

  ghost predicate ValidTable(t: FanTable)
  {
    t.name != "" && CurveValid(t.cpu) && CurveValid(t.gpu)
  }

  /** The status of `lcc_validate_fan_table`. */
  ghost function ValidationStatus(t: FanTable): Status
  {
    if t.name == "" then InvalidArgument
    else if CurveValid(t.cpu) && CurveValid(t.gpu) then Ok
    else RangeError
  }

  /** Comparing neighbours once decides monotonicity between all pairs. */
  method Validate(t: FanTable) returns (status: Status)
    ensures status == ValidationStatus(t)
    ensures status == Ok <==> ValidTable(t)
  {
    if t.name == "" {
      return InvalidArgument;
    }
    var index := 0;
    while index < POINTS
      invariant 0 <= index <= POINTS
      invariant CurveValid(t.cpu[..index]) && CurveValid(t.gpu[..index])
    {
      if t.cpu[index].down > t.cpu[index].up || t.gpu[index].down > t.gpu[index].up {
        return RangeError;
      }
      if t.cpu[index].duty > 100 || t.gpu[index].duty > 100 {
        return RangeError;
      }
      if index > 0 {
        if !PointBelow(t.cpu[index - 1], t.cpu[index]) || !PointBelow(t.gpu[index - 1], t.gpu[index]) {
          return RangeError;
        }
      }
      CurveExtends(t.cpu, index);
      CurveExtends(t.gpu, index);
      index := index + 1;
    }
    assert t.cpu[..index] == t.cpu && t.gpu[..index] == t.gpu;
    return Ok;
  }

  lemma CurveExtends(c: seq<FanPoint>, n: nat)
    requires n < |c| && CurveValid(c[..n])
    requires PointLegal(c[n]) && (n > 0 ==> PointBelow(c[n - 1], c[n]))
    ensures CurveValid(c[..n + 1])
  {
    var d := c[..n + 1];
    forall i, j | 0 <= i <= j < |d|
      ensures PointBelow(d[i], d[j])
    {
      if j < n {
        assert d[i] == c[..n][i] && d[j] == c[..n][j];
      } else if i < n {
        assert c[..n][i] == c[i] && c[..n][n - 1] == c[n - 1];
      }
    }
    forall i | 0 <= i < |d|
      ensures PointLegal(d[i])
    {
      if i < n {
        assert d[i] == c[..n][i];
      }
    }
  }

  /** One point of the built-in table, in the source's 8-bit arithmetic. */
  method DemoPoint(up: byte, duty: byte, index: nat) returns (p: FanPoint)
    requires index < POINTS && 3 <= up <= 45 && duty <= 20
    ensures p == FanPoint(up + 3 * index, up - 3 + 3 * index, duty + 5 * index)
  {
    var u := (up + index * 3) % 0x100;
    var d := (duty + index * 5) % 0x100;
    p := FanPoint(u, (u - 3) % 0x100, if d > 100 then 100 else d);
  }

  /** The built-in table always validates under any non-empty name. */
  method BuildDemo(name: string) returns (status: Status, t: FanTable)
    ensures status == if name == "" then InvalidArgument else Ok
    ensures status == Ok ==> ValidTable(t) && t.activated && t.respective && t.name == Truncate(name, 32)
  {
    t := FanTable("", false, false, seq(16, _ => ZERO_POINT), seq(16, _ => ZERO_POINT));
    if name == "" {
      return InvalidArgument, t;
    }
    t := t.(name := Truncate(name, 32), activated := true, respective := true);
    var index := 0;
    while index < POINTS
      invariant 0 <= index <= POINTS
      invariant t.name == Truncate(name, 32) && t.activated && t.respective
      invariant forall i | 0 <= i < index :: t.cpu[i] == FanPoint(40 + 3 * i, 37 + 3 * i, 18 + 5 * i)
      invariant forall i | 0 <= i < index :: t.gpu[i] == FanPoint(45 + 3 * i, 42 + 3 * i, 20 + 5 * i)
    {
      var cpuPoint := DemoPoint(40, 18, index);
      var gpuPoint := DemoPoint(45, 20, index);
      t := t.(cpu := t.cpu[index := cpuPoint], gpu := t.gpu[index := gpuPoint]);
      index := index + 1;
    }
    return Ok, t;
  }
}
