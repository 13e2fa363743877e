// The profile document loader (src/core/profile/loader.c, validator.c).
module Loader {
  import opened Types
  import opened CText
  import opened Numbers
  import opened FanTables
  import opened PlanBuilders

  datatype Section = NoSection | ModeSection | PowerSection | FanSection

  /** The state of the line loop. On a bad line it stops, with the document as filled so far. */
  datatype Loading = Reading(doc: ProfileDocument, section: Section) | Broken(doc: ProfileDocument, error: Failure)

  datatype Entry = Entered(doc: ProfileDocument) | Refused(doc: ProfileDocument, error: Failure)

  function NoPoints(): Curve { seq(16, _ => ZERO_POINT) }

  /** `profile_document_init` */
  function NoFan(): FanTable { FanTable("", true, true, NoPoints(), NoPoints()) }
  function NoDocument(): ProfileDocument { ProfileDocument(false, Gaming, false, NO_LIMITS, false, NoFan()) }

  // ----- entries

  function ParseBool(text: string): Parsed<bool>
  {
    if text == "1" || text == "true" || text == "yes" || text == "on" then Value(true)
    else if text == "0" || text == "false" || text == "no" || text == "off" then Value(false)
    else Bad(ParseError)
  }

  function ModeEntry(doc: ProfileDocument, key: string, value: string): Entry
  {
    if key != "value" || ModeFromName(value).None? then Refused(doc, ParseError)
    else Entered(doc.(hasMode := true, mode := ModeFromName(value).value))
  }

  function PowerKey(f: PowerField): string
  {
    match f
    case Pl1 => "pl1"
    case Pl2 => "pl2"
    case Pl4 => "pl4"
    case Tcc => "tcc_offset"
  }

  function PowerKeyOf(key: string): Option<PowerField>
  {
    if key == "pl1" then Some(Pl1)
    else if key == "pl2" then Some(Pl2)
    else if key == "pl4" then Some(Pl4)
    else if key == "tcc_offset" then Some(Tcc)
    else None
  }

  function WithField(l: PowerLimits, f: PowerField, b: OptByte): PowerLimits
  {
    match f
    case Pl1 => l.(pl1 := b)
    case Pl2 => l.(pl2 := b)
    case Pl4 => l.(pl4 := b)
    case Tcc => l.(tcc := b)
  }

  function PowerEntry(doc: ProfileDocument, key: string, value: string): Entry
  {
    match PowerKeyOf(key)
    case None => Refused(doc, ParseError)
    case Some(f) =>
      match ParseU8(value)
      case Bad(error) => Refused(doc, error)
      case Value(v) => Entered(doc.(hasPower := true, power := WithField(doc.power, f, OptByte(true, v))))
  }

  /** The parts of a triplet after `got`, up to three and no more. */
  function TripletFrom(rest: string, got: seq<byte>): Parsed<FanPoint>
    requires |got| < 3
    decreases 3 - |got|
  {
    var comma := FindChar(rest, ',', 0);
    var part := Strip(rest[..comma]);
    if part == "" then Bad(ParseError)
    else
      match ParseU8(part)
      case Bad(error) => Bad(error)
      case Value(v) =>
        if |got| < 2 then (if comma == |rest| then Bad(ParseError) else TripletFrom(rest[comma + 1..], got + [v]))
        else if comma < |rest| then Bad(ParseError)
        else Value(FanPoint(got[0], got[1], v))
  }

  function ParseTriplet(value: string): Parsed<FanPoint>
  {
    if |value| >= 64 then Bad(BufferTooSmall) else TripletFrom(value, [])
  }

  /** `parse_fan_triplet`, which splits a copy of the value in place. */
  method SplitTriplet(value: string) returns (point: Parsed<FanPoint>)
    ensures point == ParseTriplet(value)
  {
    if |value| >= 64 {
      return Bad(BufferTooSmall);
    }
    var cursor := Some(value);
    var parsed: seq<byte> := [];
    while |parsed| < 3 && cursor.Some?
      invariant |parsed| <= 3
      invariant |parsed| == 0 ==> cursor.Some?
      invariant |parsed| < 3 ==> ParseTriplet(value) == if cursor.Some? then TripletFrom(cursor.value, parsed)
          else Bad(ParseError)
      invariant |parsed| == 3 ==>
        ParseTriplet(value) == if cursor.None? then Value(FanPoint(parsed[0], parsed[1], parsed[2]))
            else Bad(ParseError)
      decreases 3 - |parsed|
    {
      var comma := FindChar(cursor.value, ',', 0);
      var part := Trim(cursor.value[..comma]);
      if part == "" {
        return Bad(ParseError);
      }
      var number := ParseU8(part);
      if number.Bad? {
        return Bad(number.error);
      }
      cursor := if comma < |cursor.value| then Some(cursor.value[comma + 1..]) else None;
      parsed := parsed + [number.value];
    }
    if |parsed| != 3 || cursor.Some? {
      return Bad(ParseError);
    }
    return Value(FanPoint(parsed[0], parsed[1], parsed[2]));
  }

  function CurvePrefix(cpu: bool): string { if cpu then "cpu." else "gpu." }

  function WithPoint(t: FanTable, cpu: bool, i: nat, p: FanPoint): FanTable
    requires i < POINTS
  {
    if cpu then t.(cpu := t.cpu[i := p]) else t.(gpu := t.gpu[i := p])
  }

  /** The curve and index an assignment names. */
  function PointIndex(key: string): Parsed<(bool, nat)>
    ensures PointIndex(key).Value? ==> PointIndex(key).value.1 < POINTS
  {
    if CurvePrefix(true) <= key || CurvePrefix(false) <= key then
      match StrToUL(key[4..], 10)
      case Nothing => Bad(RangeError)
      case Converted(index, end) =>
        if end != |key| - 4 || index >= POINTS then Bad(RangeError) else Value((CurvePrefix(true) <= key, index))
    else Bad(ParseError)
  }

  function PointEntry(t: FanTable, key: string, value: string): Parsed<FanTable>
  {
    match PointIndex(key)
    case Bad(error) => Bad(error)
    case Value(at) =>
      match ParseTriplet(value)
      case Bad(error) => Bad(error)
      case Value(p) => Value(WithPoint(t, at.0, at.1, p))
  }

  function FanEntry(doc: ProfileDocument, key: string, value: string): Entry
  {
    var d := doc.(hasFan := true);
    if key == "name" then
      if |value| >= 32 then Refused(d, BufferTooSmall) else Entered(d.(fan := d.fan.(name := value)))
    else if key == "activated" || key == "fan_control_respective" then
      match ParseBool(value)
      case Bad(error) => Refused(d, error)
      case Value(b) => Entered(d.(fan := if key == "activated" then d.fan.(activated := b)
                                  else d.fan.(respective := b)))
    else
      match PointEntry(d.fan, key, value)
      case Bad(error) => Refused(d, error)
      case Value(t) => Entered(d.(fan := t))
  }

  function EnterIn(section: Section, doc: ProfileDocument, key: string, value: string): Entry
  {
    match section
    case NoSection => Refused(doc, ParseError)
    case ModeSection => ModeEntry(doc, key, value)
    case PowerSection => PowerEntry(doc, key, value)
    case FanSection => FanEntry(doc, key, value)
  }

  // ----- lines

  function SectionName(section: Section): string
  {
    match section
    case NoSection => ""
    case ModeSection => "mode"
    case PowerSection => "power"
    case FanSection => "fan"
  }

  function SectionNamed(name: string): Section
  {
    if name == "mode" then ModeSection else if name == "power" then PowerSection else if name == "fan" then FanSection
        else NoSection
  }

  predicate Ignored(text: string) { text == "" || text[0] == '#' || text[0] == ';' }

  /** One trimmed line of the section machine. */
  function TextLine(doc: ProfileDocument, section: Section, text: string): Loading
  {
    if Ignored(text) then Reading(doc, section)
    else if text[0] == '[' then
      if |text| < 3 || text[|text| - 1] != ']' ||
          SectionNamed(text[1..|text| - 1]).NoSection? then Broken(doc, ParseError)
      else Reading(doc, SectionNamed(text[1..|text| - 1]))
    else
      var separator := FindChar(text, '=', 0);
      if separator == |text| then Broken(doc, ParseError)
      else
        match EnterIn(section, doc, Strip(text[..separator]), Strip(text[separator + 1..]))
        case Refused(d, error) => Broken(d, error)
        case Entered(d) => Reading(d, section)
  }

  function Line(l: Loading, line: string): Loading
  {
    if l.Broken? then l else TextLine(l.doc, l.section, Strip(line))
  }

  const LINE_MAX: nat := 255

  /** `fgets` into 256 characters: through the next newline, but no more than 255. */
  function PieceLength(content: string): (n: nat)
    requires content != ""
    ensures 0 < n <= |content|
  {
    var newline := FindChar(content, '\n', 0);
    Min(Min(newline + 1, |content|), LINE_MAX)
  }

  function Lines(l: Loading, content: string): Loading
    decreases |content|
  {
    if content == "" then l else Lines(Line(l, content[..PieceLength(content)]), content[PieceLength(content)..])
  }

  // ----- documents

  function LastIndex(text: string, c: char): Option<nat>
  {
    if text == "" then None else if text[|text| - 1] == c then Some(|text| - 1) else LastIndex(text[..|text| - 1], c)
  }

  lemma {:induction false} LastIndexWithin(text: string, c: char)
    ensures LastIndex(text, c).Some? ==> LastIndex(text, c).value < |text|
  {
    if text != "" {
      LastIndexWithin(text[..|text| - 1], c);
    }
  }

  /** `default_fan_name_from_path`: the file's base name without its extension, or "from-file". */
  function NameFromPath(path: string): Text32
  {
    LastIndexWithin(path, '/');
    var base := if LastIndex(path, '/').Some? then path[LastIndex(path, '/').value + 1..] else path;
    LastIndexWithin(base, '.');
    var dot := LastIndex(base, '.');
    var length := if dot.Some? && dot.value > 0 then dot.value else |base|;
    if length == 0 then "from-file" else base[..Min(length, 31)]
  }

  function Named(doc: ProfileDocument, path: string): ProfileDocument
  {
    if doc.hasFan && doc.fan.name == "" then doc.(fan := doc.fan.(name := NameFromPath(path))) else doc
  }

  /** `lcc_profile_document_validate` */
  ghost function DocumentStatus(d: ProfileDocument): Status
  {
    if d.hasFan then ValidationStatus(d.fan)
    else if !d.hasMode && !d.hasPower then InvalidArgument
    else Ok
  }

  /** The status and the document as it is left, which before the call was `was`. */
  ghost function Load(content: Option<string>, path: string, was: ProfileDocument): (Status, ProfileDocument)
  {
    match content
    case None => (IoError, was)
    case Some(text) =>
      match Lines(Reading(NoDocument(), NoSection), text)
      case Broken(doc, error) => (error, doc)
      case Reading(doc, _) => (DocumentStatus(Named(doc, path)), Named(doc, path))
  }

  /** `lcc_profile_document_load`; None is a file that cannot be opened. */
  method LoadDocument(content: Option<string>, path: string, was: ProfileDocument)
    returns (status: Status, doc: ProfileDocument)
    ensures (status, doc) == Load(content, path, was)
  {
    if content.None? {
      return IoError, was;
    }
    doc := NoDocument();
    var section := NoSection;
    var rest := content.value;
    while rest != ""
      invariant Lines(Reading(doc, section), rest) == Lines(Reading(NoDocument(), NoSection), content.value)
      decreases |rest|
    {
      var n := PieceLength(rest);
      var text := Trim(rest[..n]);
      var next := TextLine(doc, section, text);
      rest := rest[n..];
      if next.Broken? {
        BrokenStays(next, rest);
        return next.error, next.doc;
      }
      doc, section := next.doc, next.section;
    }
    if doc.hasFan && doc.fan.name == "" {
      doc := doc.(fan := doc.fan.(name := NameFromPath(path)));
    }
    status := ValidateDocument(doc);
  }

  lemma {:induction false} BrokenStays(l: Loading, content: string)
    requires l.Broken?
    ensures Lines(l, content) == l
    decreases |content|
  {
    if content != "" {
      BrokenStays(l, content[PieceLength(content)..]);
    }
  }

  method ValidateDocument(d: ProfileDocument) returns (status: Status)
    ensures status == DocumentStatus(d)
  {
    if d.hasFan {
      status := Validate(d.fan);
      return;
    }
    if !d.hasMode && !d.hasPower && !d.hasFan {
      return InvalidArgument;
    }
    return Ok;
  }
}
