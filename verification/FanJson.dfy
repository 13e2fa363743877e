// Fan tables written as JSON (the parse_fan_json_array family of src/core/profile/loader.c).
module FanJson {
  import opened Types
  import opened CText
  import opened JsonText
  import opened Numbers
  import opened FanTables
  import opened Loader

  // ----- one object

  predicate JsonBlank(c: char) { c == ' ' || c == '\n' || c == '\r' || c == '\t' }

  function SkipJsonBlanks(text: string, at: nat): (i: nat)
    requires at <= |text|
    ensures at <= i <= |text|
    decreases |text| - at
  {
    if at < |text| && JsonBlank(text[at]) then SkipJsonBlanks(text, at + 1) else at
  }

  /** Where the value after the first occurrence of the quoted key begins. */
  function ValueAfter(json: string, key: string): (at: Option<nat>)
    ensures at.Some? ==> at.value <= |json|
  {
    var match_ := Find(json, key, 0);
    if !MatchesAt(json, key, match_) then None
    else
      var colon := FindChar(json, ':', match_);
      if colon == |json| then None else Some(SkipJsonBlanks(json, colon + 1))
  }

  /** `json_parse_u8_from_object`; whatever follows the digits is ignored. */
  function ObjectNumber(text: string, key: string): Option<byte>
  {
    match ValueAfter(text, key)
    case None => None
    case Some(at) =>
      match StrToUL(text[at..], 10)
      case Nothing => None
      case Converted(value, _) => if value > 0xFF then None else Some(value)
  }

  function UpKey(): string { Quote("up") }
  function DownKey(): string { Quote("down") }
  function DutyKey(): string { Quote("duty") }

  function ObjectPoint(text: string): Option<FanPoint>
  {
    var up, down, duty := ObjectNumber(text, UpKey()), ObjectNumber(text, DownKey()), ObjectNumber(text, DutyKey());
    if up.Some? && down.Some? && duty.Some? then Some(FanPoint(up.value, down.value, duty.value)) else None
  }

  // ----- the array

  /** The next `{` or `]` at or after `at`. */
  function NextMark(json: string, at: nat): (i: nat)
    requires at <= |json|
    ensures at <= i <= |json|
    ensures i < |json| ==> json[i] == '{' || json[i] == ']'
    ensures forall q: nat | at <= q < i :: json[q] != '{' && json[q] != ']'
    decreases |json| - at
  {
    if at == |json| || json[at] == '{' || json[at] == ']' then at else NextMark(json, at + 1)
  }

  const OBJECT_MAX: nat := 256

  /** How the text of one object is read. */
  type Reader = string -> Option<FanPoint>

  /** The points from a cursor inside the array, after those already read. */
  function Points(json: string, at: nat, got: seq<FanPoint>, read: Reader): (points: Parsed<seq<FanPoint>>)
    requires at <= |json| && |got| <= POINTS
    ensures points.Value? ==> |points.value| <= POINTS
    decreases |json| - at
  {
    if at == |json| then Value(got)
    else
      var mark := NextMark(json, at);
      if mark < |json| && json[mark] == ']' then Value(got)
      else
        var close := FindChar(json, '}', mark);
        if close == |json| then Bad(ParseError)
        else if close - mark + 1 >= OBJECT_MAX then Bad(BufferTooSmall)
        else
          match read(json[mark..close + 1])
          case None => Bad(ParseError)
          case Some(p) => if |got| >= POINTS then Bad(RangeError) else Points(json, close + 1, got + [p], read)
  }

  /** The points in the array when the loop ends, in whatever way. */
  function Gathered(json: string, at: nat, got: seq<FanPoint>, read: Reader): (points: seq<FanPoint>)
    requires at <= |json| && |got| <= POINTS
    ensures got <= points && |points| <= POINTS
    ensures Points(json, at, got, read).Value? ==> Points(json, at, got, read).value == points
    decreases |json| - at
  {
    var mark := NextMark(json, at);
    var close := FindChar(json, '}', mark);
    if mark == |json| || json[mark] == ']' || close == |json| || close - mark + 1 >= OBJECT_MAX then got
    else
      match read(json[mark..close + 1])
      case None => got
      case Some(p) => if |got| >= POINTS then got else Gathered(json, close + 1, got + [p], read)
  }

  /** A shorter curve is continued with its last point. */
  function Padded(points: seq<FanPoint>): Curve
    requires 0 < |points| <= POINTS
  {
    points + seq(POINTS - |points|, _ => points[|points| - 1])
  }

  /** Where the array of the quoted key begins. */
  function ArrayAfter(json: string, key: string): (at: Option<nat>)
    ensures at.Some? ==> at.value <= |json|
  {
    var match_ := Find(json, key, 0);
    if !MatchesAt(json, key, match_) then None
    else
      var open := FindChar(json, '[', match_);
      if open == |json| then None else Some(open + 1)
  }

  function CurveFrom(json: string, at: nat, read: Reader): Parsed<Curve>
    requires at <= |json|
  {
    match Points(json, at, [], read)
    case Bad(error) => Bad(error)
    case Value(points) => if points == [] then Bad(ParseError) else Value(Padded(points))
  }

  function CurveUnder(json: string, key: string, read: Reader): Parsed<Curve>
  {
    match ArrayAfter(json, key)
    case None => Bad(ParseError)
    case Some(at) => CurveFrom(json, at, read)
  }

  function ParseCurve(json: string, key: string): Parsed<Curve> { CurveUnder(json, key, ObjectPoint) }

  /** A cleared array whose first entries are these. */
  function Filled(points: seq<FanPoint>): Curve
    requires |points| <= POINTS
  {
    points + seq(POINTS - |points|, _ => ZERO_POINT)
  }

  /** A cleared curve after the parse of the array: on failure, the points read before it. */
  function CurveLeft(json: string, key: string): Curve
  {
    match ParseCurve(json, key)
    case Value(c) => c
    case Bad(_) =>
      match ArrayAfter(json, key)
      case None => Filled([])
      case Some(at) => Filled(Gathered(json, at, [], ObjectPoint))
  }

  lemma FilledGrows(got: seq<FanPoint>, p: FanPoint)
    requires |got| < POINTS
    ensures Filled(got + [p]) == Filled(got)[|got| := p]
  {
  }

  /** The loop over the objects, which fills the cleared array as it goes. */
  method ReadPoints(json: string, start: nat, points: array<FanPoint>, read: Reader)
    returns (status: Status, count: nat)
    requires start <= |json| && points.Length == POINTS && points[..] == Filled([])
    modifies points
    ensures status == if Points(json, start, [], read).Bad? then Points(json, start, [], read).error else Ok
    ensures count == |Gathered(json, start, [], read)| && points[..] == Filled(Gathered(json, start, [], read))
  {
    var cursor := start;
    count := 0;
    ghost var got: seq<FanPoint> := [];
    while cursor < |json| && json[cursor] != ']'
      invariant start <= cursor <= |json| && count == |got| <= POINTS && points[..] == Filled(got)
      invariant Points(json, cursor, got, read) == Points(json, start, [], read)
      invariant Gathered(json, cursor, got, read) == Gathered(json, start, [], read)
      decreases |json| - cursor
    {
      var mark := NextMark(json, cursor);
      if mark < |json| && json[mark] == ']' {
        return Ok, count;
      }
      var close := FindChar(json, '}', mark);
      if close == |json| {
        return ParseError, count;
      }
      if close - mark + 1 >= OBJECT_MAX {
        return BufferTooSmall, count;
      }
      var point := read(json[mark..close + 1]);
      if point.None? {
        return ParseError, count;
      }
      if count >= POINTS {
        return RangeError, count;
      }
      FilledGrows(got, point.value);
      points[count] := point.value;
      got := got + [point.value];
      count := count + 1;
      cursor := close + 1;
    }
    return Ok, count;
  }

  /** The rest of the array repeats the last point. */
  method PadPoints(points: array<FanPoint>, count: nat)
    requires points.Length == POINTS && 0 < count <= POINTS
    modifies points
    ensures points[..] == Padded(old(points[..count]))
  {
    ghost var read := points[..count];
    var last := points[count - 1];
    var next := count;
    while next < POINTS
      invariant count <= next <= POINTS
      invariant points[..count] == read
      invariant forall i | count <= i < next :: points[i] == last
    {
      points[next] := last;
      next := next + 1;
    }
    assert forall i | 0 <= i < count :: points[i] == points[..count][i];
  }

  /** `parse_fan_json_array` */
  method ReadCurve(json: string, key: string, points: array<FanPoint>) returns (status: Status)
    requires points.Length == POINTS && points[..] == Filled([])
    modifies points
    ensures status == if ParseCurve(json, key).Bad? then ParseCurve(json, key).error else Ok
    ensures points[..] == CurveLeft(json, key)
  {
    var start := ArrayAfter(json, key);
    if start.None? {
      return ParseError;
    }
    var count;
    status, count := ReadPoints(json, start.value, points, ObjectPoint);
    if status != Ok {
      return;
    }
    if count == 0 {
      return ParseError;
    }
    PadPoints(points, count);
  }

  // ----- the table

  /** `json_parse_string`: None leaves the buffer alone. */
  function ParseString(json: string, key: string, capacity: nat): Option<string>
  {
    var match_ := Find(json, key, 0);
    if capacity == 0 || !MatchesAt(json, key, match_) then None
    else
      var colon := FindChar(json, ':', match_);
      var open := FindChar(json, '"', colon);
      if colon == |json| || open == |json| then None
      else
        var close := FindChar(json, '"', open + 1);
        if close == |json| || close - open > capacity then None else Some(json[open + 1..close])
  }

  function ParseFlag(json: string, key: string, otherwise: bool): bool
  {
    match ValueAfter(json, key)
    case None => otherwise
    case Some(at) =>
      if "true" <= json[at..] then true else if "false" <= json[at..] then false else otherwise
  }

  function NameKey(): string { Quote("name") }
  function CpuKey(): string { Quote("cpu") }
  function GpuKey(): string { Quote("gpu") }

  function TableName(json: string, path: string): Text32
  {
    var name := ParseString(json, NameKey(), 32);
    if name.Some? && |name.value| < 32 then name.value else NameFromPath(path)
  }

  function TableOf(json: string, path: string, cpu: Curve, gpu: Curve): FanTable
  {
    FanTable(TableName(json, path),
             ParseFlag(json, Quote("Activated"), ParseFlag(json, Quote("activated"), true)),
             ParseFlag(json, Quote("FanControlRespective"),
                       ParseFlag(json, Quote("fan_control_respective"), true)), cpu, gpu)
  }

  datatype File = Closed | Content(text: string)

  /** `parse_fan_table_json` on a file of up to 4095 characters. */
  ghost function LoadTable(file: File, path: string): (Status, FanTable)
  {
    match file
    case Closed => (IoError, NoFan())
    case Content(json) =>
      if |json| >= 4095 then (BufferTooSmall, NoFan())
      else
        match ParseCurve(json, CpuKey())
        case Bad(error) => (error, NoFan())
        case Value(cpu) =>
          match ParseCurve(json, GpuKey())
          case Bad(error) => (error, NoFan())
          case Value(gpu) => (ValidationStatus(TableOf(json, path, cpu, gpu)), TableOf(json, path, cpu, gpu))
  }

  /** The name and the two flags. */
  method ReadHeader(json: string, path: string) returns (table: FanTable)
    ensures table == TableOf(json, path, NoPoints(), NoPoints())
  {
    table := NoFan();
    table := table.(name := TableName(json, path));
    table := table.(activated := ParseFlag(json, Quote("activated"), table.activated));
    table := table.(activated := ParseFlag(json, Quote("Activated"), table.activated));
    table := table.(respective := ParseFlag(json, Quote("fan_control_respective"), table.respective));
    table := table.(respective := ParseFlag(json, Quote("FanControlRespective"), table.respective));
  }

  /** The table as `parse_fan_table_json` leaves it; before the call it was `was`. */
  function TableLeft(file: File, path: string, was: FanTable): FanTable
  {
    match file
    case Closed => was
    case Content(json) =>
      if |json| >= 4095 then was
      else
        var cpu := CurveLeft(json, CpuKey());
        TableOf(json, path, cpu, if ParseCurve(json, CpuKey()).Bad? then NoPoints() else CurveLeft(json, GpuKey()))
  }

  /** The same in place. An accepted table is the loaded one; a refused one is left as far as it was filled. */
  method LoadTableJson(file: File, path: string, was: FanTable) returns (status: Status, table: FanTable)
    ensures status == LoadTable(file, path).0 && table == TableLeft(file, path, was)
    ensures status == Ok ==> table == LoadTable(file, path).1
  {
    table := was;
    if file.Closed? {
      return IoError, table;
    }
    if |file.text| >= 4095 {
      return BufferTooSmall, table;
    }
    table := ReadHeader(file.text, path);
    status, table := FillCurves(file.text, table);
  }

  /** The two arrays, then the validation. */
  method FillCurves(json: string, before: FanTable) returns (status: Status, table: FanTable)
    requires before.cpu == NoPoints() && before.gpu == NoPoints()
    ensures var cpu, gpu := ParseCurve(json, CpuKey()), ParseCurve(json, GpuKey());
      && table == before.(cpu := CurveLeft(json, CpuKey()),
                          gpu := if cpu.Bad? then NoPoints() else CurveLeft(json, GpuKey()))
      && status == (if cpu.Bad? then cpu.error else if gpu.Bad? then gpu.error else ValidationStatus(table))
  {
    table := before;
    var curve;
    status, curve := FillCurve(json, CpuKey());
    table := table.(cpu := curve);
    if status != Ok {
      return;
    }
    status, curve := FillCurve(json, GpuKey());
    table := table.(gpu := curve);
    if status != Ok {
      return;
    }
    status := Validate(table);
  }

  method FillCurve(json: string, key: string) returns (status: Status, curve: Curve)
    ensures status == if ParseCurve(json, key).Bad? then ParseCurve(json, key).error else Ok
    ensures curve == CurveLeft(json, key)
  {
    var points := new FanPoint[16](_ => ZERO_POINT);
    assert points[..] == Filled([]);
    status := ReadCurve(json, key, points);
    curve := points[..];
  }
}
