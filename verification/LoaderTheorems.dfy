// Loading inverts printing: the canonical text of a profile document, blanks and comments anywhere, loads back to it.
module LoaderTheorems {
  import opened Types
  import opened CText
  import opened Numbers
  import opened FanTables
  import opened PlanBuilders
  import opened Loader

  // ----- what lines mean

  datatype Item =
    | Silence
    | Header(section: Section)
    | Setting(key: string, value: string)
    | Point(cpu: bool, index: nat, point: FanPoint)

  function Do(l: Loading, item: Item): Loading
  {
    if l.Broken? then l
    else match item
      case Silence => l
      case Header(section) => Reading(l.doc, section)
      case Setting(key, value) =>
        (match EnterIn(l.section, l.doc, key, value)
         case Refused(d, error) => Broken(d, error)
         case Entered(d) => Reading(d, l.section))
      case Point(cpu, index, point) =>
        if l.section.FanSection? && index < POINTS then
          Reading(l.doc.(hasFan := true, fan := WithPoint(l.doc.fan, cpu, index, point)), FanSection)
        else Broken(l.doc, ParseError)
  }

  function DoAll(l: Loading, items: seq<Item>): Loading
  {
    if items == [] then l else Do(DoAll(l, items[..|items| - 1]), items[|items| - 1])
  }

  // ----- how lines may be printed

  predicate Blank(s: string) { forall i | 0 <= i < |s| :: IsSpace(s[i]) && s[i] != '\n' }

  datatype Printed =
    | Filler(text: string)
    | Title(section: Section, before: string, after: string)
    | Assigned(key: string, value: string, a: string, b: string, c: string, d: string)
    | Placed(cpu: bool, index: nat, point: FanPoint, a: string, b: string, c: string, d: string,
             e: string, f: string, g: string, h: string)

  function PointKey(cpu: bool, index: nat): string { CurvePrefix(cpu) + Decimal(index) }

  /** `up,down,duty` with blanks around the commas. */
  function TripletText(p: FanPoint, e: string, f: string, g: string, h: string): string
  {
    (Decimal(p.up) + e) + ([','] + ((f + Decimal(p.down) + g) + ([','] + (h + Decimal(p.duty)))))
  }

  function Assignment(key: string, b: string, c: string, value: string): string
  {
    (key + b) + (['='] + (c + value))
  }

  function LineText(p: Printed): string
  {
    match p
    case Filler(text) => text
    case Title(section, before, after) => before + (['['] + SectionName(section) + [']']) + after
    case Assigned(key, value, a, b, c, d) => a + Assignment(key, b, c, value) + d
    case Placed(cpu, i, point, a, b, c, d, e, f, g, h) =>
      a + Assignment(PointKey(cpu, i), b, c, TripletText(point, e, f, g, h)) + d
  }

  predicate KeyText(key: string)
  {
    Bare(key) && key[0] != '#' && key[0] != ';' && key[0] != '[' && forall i | 0 <= i < |key| :: key[i] != '='
  }

  predicate OneLine(text: string) { |text| < LINE_MAX && forall i | 0 <= i < |text| :: text[i] != '\n' }

  predicate WellPrinted(p: Printed)
  {
    OneLine(LineText(p))
    && match p
      case Filler(text) => Ignored(Strip(text + ['\n']))
      case Title(section, before, after) => !section.NoSection? && Blank(before) && Blank(after)
      case Assigned(key, value, a, b, c, d) => KeyText(key) && Bare(value) && Blank(a) && Blank(b) && Blank(c) &&
          Blank(d)
      case Placed(cpu, i, point, a, b, c, d, e, f, g, h) =>
        && i < POINTS && Blank(a) && Blank(b) && Blank(c) && Blank(d) && Blank(e) && Blank(f) && Blank(g) && Blank(h)
        && |TripletText(point, e, f, g, h)| < 64
  }

  function ItemOf(p: Printed): Item
  {
    match p
    case Filler(_) => Silence
    case Title(section, _, _) => Header(section)
    case Assigned(key, value, _, _, _, _) => Setting(key, value)
    case Placed(cpu, i, point, _, _, _, _, _, _, _, _) => Point(cpu, i, point)
  }

  function Text(ps: seq<Printed>): string
  {
    if ps == [] then "" else LineText(ps[0]) + (['\n'] + Text(ps[1..]))
  }

  // ----- one line

  lemma FindCharIs(text: string, c: char, at: nat)
    requires at <= |text| && (at < |text| ==> text[at] == c) && forall q: nat | q < at :: text[q] != c
    ensures FindChar(text, c, 0) == at
  {
  }

  lemma SplitAt(a: string, c: char, b: string)
    requires forall q: nat | q < |a| :: a[q] != c
    ensures var text := a + ([c] + b); FindChar(text, c, 0) == |a| && text[..|a|] == a && text[|a| + 1..] == b
  {
    var text := a + ([c] + b);
    FindCharIs(text, c, |a|);
  }

  lemma BlankHasNo(s: string, c: char)
    requires Blank(s) && !IsSpace(c)
    ensures forall q: nat | q < |s| :: s[q] != c
  {
  }

  lemma DecimalHasNo(n: nat, c: char)
    requires !IsDigit(c)
    ensures forall q: nat | q < |Decimal(n)| :: Decimal(n)[q] != c
  {
    DecimalDigits(n);
  }

  lemma DecimalBare(n: nat)
    ensures Bare(Decimal(n))
  {
    DecimalDigits(n);
    assert IsDigit(Decimal(n)[0]) && IsDigit(Decimal(n)[|Decimal(n)| - 1]);
  }

  lemma StripDecimal(a: string, n: nat, b: string)
    requires Blank(a) && Blank(b)
    ensures Strip(a + Decimal(n) + b) == Decimal(n)
  {
    DecimalBare(n);
    StripDressed(a, Decimal(n), b);
  }

  lemma PartParses(a: string, n: byte, b: string)
    requires Blank(a) && Blank(b)
    ensures var part := Strip(a + Decimal(n) + b); part != "" && ParseU8(part) == Value(n)
  {
    StripDecimal(a, n, b);
    ParsesDecimal(n);
  }

  lemma PartHasNoComma(a: string, n: nat, b: string)
    requires Blank(a) && Blank(b)
    ensures forall q: nat | q < |a + Decimal(n) + b| :: (a + Decimal(n) + b)[q] != ','
  {
    BlankHasNo(a, ',');
    BlankHasNo(b, ',');
    DecimalHasNo(n, ',');
  }

  lemma TripletStep(a: string, n: byte, b: string, more: string, got: seq<byte>)
    requires Blank(a) && Blank(b) && |got| < 2
    ensures TripletFrom((a + Decimal(n) + b) + ([','] + more), got) == TripletFrom(more, got + [n])
  {
    PartHasNoComma(a, n, b);
    SplitAt(a + Decimal(n) + b, ',', more);
    PartParses(a, n, b);
  }

  lemma TripletLast(a: string, n: byte, got: seq<byte>)
    requires Blank(a) && |got| == 2
    ensures TripletFrom(a + Decimal(n), got) == Value(FanPoint(got[0], got[1], n))
  {
    var part := a + Decimal(n);
    PartHasNoComma(a, n, "");
    assert a + Decimal(n) + "" == part;
    FindCharIs(part, ',', |part|);
    PartParses(a, n, "");
    assert part[..|part|] == part;
  }

  lemma TripletReads(p: FanPoint, e: string, f: string, g: string, h: string)
    requires Blank(e) && Blank(f) && Blank(g) && Blank(h) && |TripletText(p, e, f, g, h)| < 64
    ensures ParseTriplet(TripletText(p, e, f, g, h)) == Value(p)
  {
    var last := h + Decimal(p.duty);
    var middle := (f + Decimal(p.down) + g) + ([','] + last);
    assert "" + Decimal(p.up) + e == Decimal(p.up) + e;
    TripletStep("", p.up, e, middle, []);
    TripletStep(f, p.down, g, last, [p.up]);
    TripletLast(h, p.duty, [p.up, p.down]);
  }

  lemma TripletBare(p: FanPoint, e: string, f: string, g: string, h: string)
    ensures Bare(TripletText(p, e, f, g, h))
  {
    var t := TripletText(p, e, f, g, h);
    DecimalBare(p.up);
    DecimalBare(p.duty);
    assert t[0] == Decimal(p.up)[0];
    assert t[|t| - 1] == Decimal(p.duty)[|Decimal(p.duty)| - 1];
  }

  lemma AssignmentBare(key: string, b: string, c: string, value: string)
    requires Bare(key) && Bare(value)
    ensures Bare(Assignment(key, b, c, value)) && Assignment(key, b, c, value)[0] == key[0]
  {
    var t := Assignment(key, b, c, value);
    assert t[0] == key[0] && t[|t| - 1] == value[|value| - 1];
  }

  lemma AssignmentSplits(key: string, b: string, c: string, value: string)
    requires KeyText(key) && Bare(value) && Blank(b) && Blank(c)
    ensures var text := Assignment(key, b, c, value); var at := FindChar(text, '=', 0);
      at < |text| && Strip(text[..at]) == key && Strip(text[at + 1..]) == value
  {
    BlankHasNo(b, '=');
    SplitAt(key + b, '=', c + value);
    StripDressed("", key, b);
    assert "" + key + b == key + b;
    StripDressed(c, value, "");
    assert c + value + "" == c + value;
  }

  lemma AssignmentLine(doc: ProfileDocument, section: Section, key: string, b: string, c: string, value: string)
    requires KeyText(key) && Bare(value) && Blank(b) && Blank(c)
    ensures TextLine(doc, section, Assignment(key, b, c, value)) ==
      match EnterIn(section, doc, key, value)
      case Refused(d, error) => Broken(d, error)
      case Entered(d) => Reading(d, section)
  {
    AssignmentBare(key, b, c, value);
    AssignmentSplits(key, b, c, value);
  }

  lemma StripLine(a: string, text: string, d: string)
    requires Blank(a) && Bare(text) && Blank(d)
    ensures Strip(a + text + d + ['\n']) == text
  {
    assert AllSpace(d + ['\n']);
    StripDressed(a, text, d + ['\n']);
    assert a + text + (d + ['\n']) == a + text + d + ['\n'];
  }

  lemma SectionLine(doc: ProfileDocument, old_: Section, section: Section)
    requires !section.NoSection?
    ensures var text := ['['] + SectionName(section) + [']'];
      Bare(text) && TextLine(doc, old_, text) == Reading(doc, section)
  {
    var name := SectionName(section);
    var text := ['['] + name + [']'];
    assert text[1..|text| - 1] == name;
    assert SectionNamed(name) == section && |name| >= 3;
  }

  lemma Prefixes(cpu: bool)
    ensures var p := CurvePrefix(cpu);
      |p| == 4 && p[0] == (if cpu then 'c' else 'g') && forall i | 0 <= i < 4 :: p[i] != '=' && !IsSpace(p[i])
  {
  }

  lemma PointKeyIndex(cpu: bool, i: nat)
    requires i < POINTS
    ensures PointIndex(PointKey(cpu, i)) == Value((cpu, i))
  {
    var key := PointKey(cpu, i);
    Prefixes(true);
    Prefixes(false);
    assert key[4..] == Decimal(i) && key[0] == CurvePrefix(cpu)[0];
    assert CurvePrefix(cpu) <= key;
    ReadsDecimal(i, "");
    assert Decimal(i) + "" == Decimal(i);
  }

  lemma PointKeyText(cpu: bool, i: nat)
    ensures KeyText(PointKey(cpu, i)) && PointKey(cpu, i)[0] == (if cpu then 'c' else 'g')
  {
    var key, prefix := PointKey(cpu, i), CurvePrefix(cpu);
    Prefixes(cpu);
    DecimalBare(i);
    DecimalHasNo(i, '=');
    assert key[0] == prefix[0] && key[|key| - 1] == Decimal(i)[|Decimal(i)| - 1];
  }

  lemma PointKeyReads(cpu: bool, i: nat)
    requires i < POINTS
    ensures PointIndex(PointKey(cpu, i)) == Value((cpu, i))
    ensures KeyText(PointKey(cpu, i)) && PointKey(cpu, i)[0] == (if cpu then 'c' else 'g')
  {
    PointKeyIndex(cpu, i);
    PointKeyText(cpu, i);
  }

  lemma PointNotNamed(key: string)
    requires key != "" && (key[0] == 'c' || key[0] == 'g')
    ensures key != "name" && key != "activated" && key != "fan_control_respective" && key != "value" &&
      PowerKeyOf(key).None?
  {
    assert "name"[0] == 'n' && "activated"[0] == 'a' && "fan_control_respective"[0] == 'f' && "value"[0] == 'v';
    assert "pl1"[0] == 'p' && "pl2"[0] == 'p' && "pl4"[0] == 'p' && "tcc_offset"[0] == 't';
  }

  lemma PointEnters(doc: ProfileDocument, section: Section, cpu: bool, i: nat, value: string, p: FanPoint)
    requires i < POINTS && ParseTriplet(value) == Value(p)
    ensures EnterIn(section, doc, PointKey(cpu, i), value) ==
      if section.FanSection? then Entered(doc.(hasFan := true, fan := WithPoint(doc.fan, cpu, i, p)))
          else Refused(doc, ParseError)
  {
    PointKeyReads(cpu, i);
    PointNotNamed(PointKey(cpu, i));
  }

  lemma PlacedText(doc: ProfileDocument, section: Section, p: Printed)
    requires WellPrinted(p) && p.Placed?
    ensures var text := Assignment(PointKey(p.cpu, p.index), p.b, p.c, TripletText(p.point, p.e, p.f, p.g, p.h));
      && Bare(text)
      && TextLine(doc, section, text) ==
           if section.FanSection?
           then Reading(doc.(hasFan := true, fan := WithPoint(doc.fan, p.cpu, p.index, p.point)), section)
           else Broken(doc, ParseError)
  {
    var key, value := PointKey(p.cpu, p.index), TripletText(p.point, p.e, p.f, p.g, p.h);
    PointKeyReads(p.cpu, p.index);
    TripletBare(p.point, p.e, p.f, p.g, p.h);
    TripletReads(p.point, p.e, p.f, p.g, p.h);
    AssignmentBare(key, p.b, p.c, value);
    AssignmentLine(doc, section, key, p.b, p.c, value);
    PointEnters(doc, section, p.cpu, p.index, value, p.point);
  }

  lemma PlacedMeans(l: Loading, p: Printed)
    requires l.Reading? && WellPrinted(p) && p.Placed?
    ensures Line(l, LineText(p) + ['\n']) == Do(l, ItemOf(p))
  {
    PlacedText(l.doc, l.section, p);
    StripLine(p.a, Assignment(PointKey(p.cpu, p.index), p.b, p.c, TripletText(p.point, p.e, p.f, p.g, p.h)), p.d);
  }

  /** A printed line does what its item says. */
  lemma LineMeans(l: Loading, p: Printed)
    requires l.Reading? && WellPrinted(p)
    ensures Line(l, LineText(p) + ['\n']) == Do(l, ItemOf(p))
  {
    match p {
      case Filler(text) =>
      case Title(section, before, after) =>
        SectionLine(l.doc, l.section, section);
        StripLine(before, ['['] + SectionName(section) + [']'], after);
      case Assigned(key, value, a, b, c, d) =>
        AssignmentBare(key, b, c, value);
        StripLine(a, Assignment(key, b, c, value), d);
        AssignmentLine(l.doc, l.section, key, b, c, value);
      case Placed(_, _, _, _, _, _, _, _, _, _, _) =>
        PlacedMeans(l, p);
    }
  }

  // ----- all lines

  lemma PieceIsLine(line: string, rest: string)
    requires OneLine(line)
    ensures var content := line + (['\n'] + rest);
      PieceLength(content) == |line| + 1 && content[..|line| + 1] == line + ['\n'] && content[|line| + 1..] == rest
  {
    var content := line + (['\n'] + rest);
    FindCharIs(content, '\n', |line|);
  }

  predicate AllWellPrinted(ps: seq<Printed>) { forall p | p in ps :: WellPrinted(p) }

  function Items(ps: seq<Printed>): seq<Item>
  {
    if ps == [] then [] else [ItemOf(ps[0])] + Items(ps[1..])
  }

  lemma {:induction false} DoFrom(l: Loading, item: Item, items: seq<Item>)
    ensures DoAll(l, [item] + items) == DoAll(Do(l, item), items)
  {
    var all := [item] + items;
    if items == [] {
      assert all[..|all| - 1] == [];
    } else {
      var front := items[..|items| - 1];
      DoFrom(l, item, front);
      assert all[..|all| - 1] == [item] + front;
    }
  }

  lemma {:induction false} DoBroken(l: Loading, items: seq<Item>)
    requires l.Broken?
    ensures DoAll(l, items) == l
  {
    if items != [] {
      DoBroken(l, items[..|items| - 1]);
    }
  }

  lemma LinesStep(l: Loading, ps: seq<Printed>)
    requires ps != [] && OneLine(LineText(ps[0]))
    ensures Lines(l, Text(ps)) == Lines(Line(l, LineText(ps[0]) + ['\n']), Text(ps[1..]))
  {
    PieceIsLine(LineText(ps[0]), Text(ps[1..]));
  }

  lemma WellPrintedParts(ps: seq<Printed>)
    requires AllWellPrinted(ps) && ps != []
    ensures WellPrinted(ps[0]) && AllWellPrinted(ps[1..])
  {
    assert ps[0] in ps;
  }

  /** Reading the printed lines does what their items do. */
  predicate Agree(l: Loading, ps: seq<Printed>)
  {
    Lines(l, Text(ps)) == DoAll(l, Items(ps))
  }

  /** The first line and the first item lead to the same state. */
  lemma FirstLine(l: Loading, ps: seq<Printed>) returns (next: Loading)
    requires l.Reading? && ps != [] && AllWellPrinted(ps)
    ensures Agree(next, ps[1..]) ==> Agree(l, ps)
  {
    WellPrintedParts(ps);
    LinesStep(l, ps);
    LineMeans(l, ps[0]);
    DoFrom(l, ItemOf(ps[0]), Items(ps[1..]));
    next := Do(l, ItemOf(ps[0]));
  }

  lemma NothingLeft(l: Loading, ps: seq<Printed>)
    requires l.Broken? || ps == []
    ensures Agree(l, ps)
  {
    if l.Broken? {
      BrokenStays(l, Text(ps));
      DoBroken(l, Items(ps));
    }
  }

  lemma {:induction false} LinesMean(l: Loading, ps: seq<Printed>)
    requires AllWellPrinted(ps)
    ensures Agree(l, ps)
    decreases |ps|
  {
    if l.Broken? || ps == [] {
      NothingLeft(l, ps);
    } else {
      WellPrintedParts(ps);
      var next := FirstLine(l, ps);
      LinesMean(next, ps[1..]);
    }
  }

  // ----- the canonical items of a document

  function PowerItem(l: PowerLimits, f: PowerField): seq<Item>
  {
    if l.Get(f).present then [Setting(PowerKey(f), Decimal(l.Get(f).value))] else []
  }

  function PowerItems(l: PowerLimits): seq<Item>
  {
    PowerItem(l, Pl1) + PowerItem(l, Pl2) + PowerItem(l, Pl4) + PowerItem(l, Tcc)
  }

  function BoolName(b: bool): string { if b then "true" else "false" }

  function CurveItems(cpu: bool, c: Curve, n: nat): seq<Item>
    requires n <= POINTS
  {
    if n == 0 then [] else CurveItems(cpu, c, n - 1) + [Point(cpu, n - 1, c[n - 1])]
  }

  function FanItems(t: FanTable): seq<Item>
  {
    [Setting("name", t.name), Setting("activated", BoolName(t.activated)),
     Setting("fan_control_respective", BoolName(t.respective))]
    + CurveItems(true, t.cpu, POINTS) + CurveItems(false, t.gpu, POINTS)
  }

  function ModeItems(d: ProfileDocument): seq<Item>
  {
    if d.hasMode then [Header(ModeSection)] + [Setting("value", ModeName(d.mode))] else []
  }

  function LimitItems(d: ProfileDocument): seq<Item>
  {
    if d.hasPower then [Header(PowerSection)] + PowerItems(d.power) else []
  }

  function TableItems(d: ProfileDocument): seq<Item>
  {
    if d.hasFan then [Header(FanSection)] + FanItems(d.fan) else []
  }

  function Canonical(d: ProfileDocument): seq<Item>
  {
    ModeItems(d) + LimitItems(d) + TableItems(d)
  }

  /** A valid document in which absent parts hold what a cleared document holds, and the table name can stand in a
      line. */
  ghost predicate Printable(d: ProfileDocument)
  {
    && DocumentStatus(d) == Ok
    && (!d.hasMode ==> d.mode == Gaming)
    && (if d.hasPower then d.power.AnyPresent() else d.power == NO_LIMITS)
    && (forall f: PowerField :: !d.power.Get(f).present ==> d.power.Get(f) == ABSENT)
    && (if d.hasFan then Bare(d.fan.name) else d.fan == NoFan())
  }

  // ----- doing them

  lemma {:induction false} DoConcat(l: Loading, a: seq<Item>, b: seq<Item>)
    ensures DoAll(l, a + b) == DoAll(DoAll(l, a), b)
  {
    if b == [] {
      assert a + b == a;
    } else {
      DoConcat(l, a, b[..|b| - 1]);
      assert (a + b)[..|a + b| - 1] == a + b[..|b| - 1];
    }
  }

  lemma DoOne(l: Loading, item: Item)
    ensures DoAll(l, [item]) == Do(l, item)
  {
    assert [item][..0] == [];
  }

  lemma PowerKeyKnown(f: PowerField)
    ensures PowerKeyOf(PowerKey(f)) == Some(f)
  {
    assert "pl1"[2] == '1' && "pl2"[2] == '2' && "pl4"[2] == '4' && |"tcc_offset"| == 10;
  }

  lemma PowerEnters(doc: ProfileDocument, f: PowerField, v: byte)
    ensures EnterIn(PowerSection, doc, PowerKey(f), Decimal(v)) ==
      Entered(doc.(hasPower := true, power := WithField(doc.power, f, OptByte(true, v))))
  {
    PowerKeyKnown(f);
    ParsesDecimal(v);
  }

  lemma DoPowerItem(doc: ProfileDocument, l: PowerLimits, f: PowerField)
    ensures DoAll(Reading(doc, PowerSection), PowerItem(l, f)) ==
      Reading(if l.Get(f).present
              then doc.(hasPower := true, power := WithField(doc.power, f, OptByte(true, l.Get(f).value)))
              else doc, PowerSection)
  {
    if l.Get(f).present {
      PowerEnters(doc, f, l.Get(f).value);
      DoOne(Reading(doc, PowerSection), Setting(PowerKey(f), Decimal(l.Get(f).value)));
    }
  }

  function WithIf(d: ProfileDocument, l: PowerLimits, f: PowerField): ProfileDocument
  {
    if l.Get(f).present then d.(hasPower := true, power := WithField(d.power, f, OptByte(true, l.Get(f).value))) else d
  }

  lemma DoPower(doc: ProfileDocument, l: PowerLimits)
    requires doc.power == NO_LIMITS && l.AnyPresent() && forall f: PowerField :: !l.Get(f).present ==>
      l.Get(f) == ABSENT
    ensures DoAll(Reading(doc, PowerSection), PowerItems(l)) ==
      Reading(doc.(hasPower := true, power := l), PowerSection)
  {
    var start := Reading(doc, PowerSection);
    var d1 := WithIf(doc, l, Pl1);
    DoPowerItem(doc, l, Pl1);
    var d2 := WithIf(d1, l, Pl2);
    DoPowerItem(d1, l, Pl2);
    DoConcat(start, PowerItem(l, Pl1), PowerItem(l, Pl2));
    var d4 := WithIf(d2, l, Pl4);
    DoPowerItem(d2, l, Pl4);
    DoConcat(start, PowerItem(l, Pl1) + PowerItem(l, Pl2), PowerItem(l, Pl4));
    DoPowerItem(d4, l, Tcc);
    DoConcat(start, PowerItem(l, Pl1) + PowerItem(l, Pl2) + PowerItem(l, Pl4), PowerItem(l, Tcc));
    assert WithIf(d4, l, Tcc) == doc.(hasPower := true, power := l) by {
      assert !l.Get(Pl1).present ==> l.Get(Pl1) == ABSENT;
      assert !l.Get(Pl2).present ==> l.Get(Pl2) == ABSENT;
      assert !l.Get(Pl4).present ==> l.Get(Pl4) == ABSENT;
      assert !l.Get(Tcc).present ==> l.Get(Tcc) == ABSENT;
    }
  }

  function WithCurve(t: FanTable, cpu: bool, c: Curve): FanTable { if cpu then t.(cpu := c) else t.(gpu := c) }

  function Part(t: FanTable, cpu: bool, c: Curve, n: nat): FanTable
    requires n <= POINTS
  {
    WithCurve(t, cpu, c[..n] + (if cpu then t.cpu else t.gpu)[n..])
  }

  /** One more point of a partly replaced curve. */
  lemma PartGrows(t: FanTable, cpu: bool, c: Curve, n: nat)
    requires 0 < n <= POINTS
    ensures WithPoint(Part(t, cpu, c, n - 1), cpu, n - 1, c[n - 1]) == Part(t, cpu, c, n)
  {
    var was := if cpu then t.cpu else t.gpu;
    assert (c[..n - 1] + was[n - 1..])[n - 1 := c[n - 1]] == c[..n] + was[n..];
  }

  lemma PartNone(t: FanTable, cpu: bool, c: Curve)
    ensures Part(t, cpu, c, 0) == t
  {
    var was := if cpu then t.cpu else t.gpu;
    assert c[..0] + was[0..] == was;
  }

  lemma {:induction false} DoCurve(doc: ProfileDocument, cpu: bool, c: Curve, n: nat)
    requires doc.hasFan && n <= POINTS
    ensures DoAll(Reading(doc, FanSection), CurveItems(cpu, c, n)) ==
      Reading(doc.(fan := Part(doc.fan, cpu, c, n)), FanSection)
  {
    if n == 0 {
      PartNone(doc.fan, cpu, c);
    } else {
      DoCurve(doc, cpu, c, n - 1);
      PartGrows(doc.fan, cpu, c, n);
      DoPoint(doc, CurveItems(cpu, c, n - 1), doc.(fan := Part(doc.fan, cpu, c, n - 1)), Point(cpu, n - 1, c[n - 1]));
    }
  }

  lemma DoPoint(doc: ProfileDocument, items: seq<Item>, before: ProfileDocument, item: Item)
    requires DoAll(Reading(doc, FanSection), items) == Reading(before, FanSection)
    ensures DoAll(Reading(doc, FanSection), items + [item]) == Do(Reading(before, FanSection), item)
  {
    assert (items + [item])[..|items|] == items;
  }

  lemma DoWholeCurve(doc: ProfileDocument, cpu: bool, c: Curve)
    requires doc.hasFan
    ensures DoAll(Reading(doc, FanSection), CurveItems(cpu, c, POINTS)) ==
      Reading(doc.(fan := WithCurve(doc.fan, cpu, c)), FanSection)
  {
    DoCurve(doc, cpu, c, POINTS);
    var was := if cpu then doc.fan.cpu else doc.fan.gpu;
    assert c[..POINTS] + was[POINTS..] == c;
  }

  lemma BoolReads(b: bool)
    ensures ParseBool(BoolName(b)) == Value(b)
  {
    assert |"true"| == 4 && |"false"| == 5 && |"1"| == 1 && |"yes"| == 3 && |"on"| == 2;
  }

  lemma DoFanSettings(doc: ProfileDocument, t: FanTable)
    ensures DoAll(Reading(doc, FanSection),
                  [Setting("name", t.name), Setting("activated", BoolName(t.activated)),
                   Setting("fan_control_respective", BoolName(t.respective))])
      == Reading(doc.(hasFan := true, fan := doc.fan.(name := t.name, activated := t.activated,
                                                      respective := t.respective)), FanSection)
  {
    var i1, i2, i3 := Setting("name", t.name), Setting("activated", BoolName(t.activated)),
                      Setting("fan_control_respective", BoolName(t.respective));
    BoolReads(t.activated);
    BoolReads(t.respective);
    assert |"name"| == 4 && |"activated"| == 9 && |"fan_control_respective"| == 22;
    var l := Reading(doc, FanSection);
    DoOne(l, i1);
    DoConcat(l, [i1], [i2]);
    DoOne(Do(l, i1), i2);
    DoConcat(l, [i1] + [i2], [i3]);
    DoOne(Do(Do(l, i1), i2), i3);
    assert [i1, i2, i3] == [i1] + [i2] + [i3];
  }

  lemma DoFan(doc: ProfileDocument, t: FanTable)
    ensures DoAll(Reading(doc, FanSection), FanItems(t)) == Reading(doc.(hasFan := true, fan := t), FanSection)
  {
    var settings := [Setting("name", t.name), Setting("activated", BoolName(t.activated)),
                     Setting("fan_control_respective", BoolName(t.respective))];
    var l := Reading(doc, FanSection);
    var d1 := doc.(hasFan := true, fan := doc.fan.(name := t.name, activated := t.activated,
                                                   respective := t.respective));
    DoFanSettings(doc, t);
    DoConcat(l, settings, CurveItems(true, t.cpu, POINTS));
    DoWholeCurve(d1, true, t.cpu);
    DoConcat(l, settings + CurveItems(true, t.cpu, POINTS), CurveItems(false, t.gpu, POINTS));
    DoWholeCurve(d1.(fan := d1.fan.(cpu := t.cpu)), false, t.gpu);
  }

  lemma DoMode(doc: ProfileDocument, mode: Mode)
    ensures DoAll(Reading(doc, ModeSection), [Setting("value", ModeName(mode))]) ==
      Reading(doc.(hasMode := true, mode := mode), ModeSection)
  {
    ModeNameReads(mode);
    DoOne(Reading(doc, ModeSection), Setting("value", ModeName(mode)));
  }

  lemma ModeNameReads(mode: Mode)
    ensures ModeFromName(ModeName(mode)) == Some(mode)
  {
    assert "gaming"[0] == 'g' && "office"[0] == 'o' && "turbo"[0] == 't' && "custom"[0] == 'c';
  }

  /** After the header, the part's items run in its section. */
  lemma DoHeaded(doc: ProfileDocument, was: Section, section: Section, items: seq<Item>)
    ensures DoAll(Reading(doc, was), [Header(section)] + items) == DoAll(Reading(doc, section), items)
  {
    DoFrom(Reading(doc, was), Header(section), items);
  }

  lemma DoModeItems(d: ProfileDocument, doc: ProfileDocument, was: Section)
    requires !d.hasMode ==> doc.hasMode == d.hasMode && doc.mode == d.mode
    ensures DoAll(Reading(doc, was), ModeItems(d))
      == Reading(doc.(hasMode := d.hasMode, mode := d.mode), if d.hasMode then ModeSection else was)
  {
    if d.hasMode {
      DoHeaded(doc, was, ModeSection, [Setting("value", ModeName(d.mode))]);
      DoMode(doc, d.mode);
    }
  }

  lemma DoLimitItems(d: ProfileDocument, doc: ProfileDocument, was: Section)
    requires Printable(d) && doc.power == NO_LIMITS && !doc.hasPower
    ensures DoAll(Reading(doc, was), LimitItems(d))
      == Reading(doc.(hasPower := d.hasPower, power := d.power), if d.hasPower then PowerSection else was)
  {
    if d.hasPower {
      DoHeaded(doc, was, PowerSection, PowerItems(d.power));
      DoPower(doc, d.power);
    }
  }

  lemma DoTableItems(d: ProfileDocument, doc: ProfileDocument, was: Section)
    requires Printable(d) && doc.fan == NoFan() && !doc.hasFan
    ensures DoAll(Reading(doc, was), TableItems(d))
      == Reading(doc.(hasFan := d.hasFan, fan := d.fan), if d.hasFan then FanSection else was)
  {
    if d.hasFan {
      DoHeaded(doc, was, FanSection, FanItems(d.fan));
      DoFan(doc, d.fan);
    }
  }

  lemma CanonicalMeans(d: ProfileDocument)
    requires Printable(d)
    ensures var l := DoAll(Reading(NoDocument(), NoSection), Canonical(d)); l.Reading? && l.doc == d
  {
    var start := Reading(NoDocument(), NoSection);
    var d1, s1 := NoDocument().(hasMode := d.hasMode, mode := d.mode), if d.hasMode then ModeSection else NoSection;
    DoModeItems(d, NoDocument(), NoSection);
    var d2, s2 := d1.(hasPower := d.hasPower, power := d.power), if d.hasPower then PowerSection else s1;
    DoLimitItems(d, d1, s1);
    DoConcat(start, ModeItems(d), LimitItems(d));
    DoTableItems(d, d2, s2);
    DoConcat(start, ModeItems(d) + LimitItems(d), TableItems(d));
  }

  /** The items that mean something. */
  function Spoken(items: seq<Item>): seq<Item>
  {
    if items == [] then []
    else Spoken(items[..|items| - 1]) + if items[|items| - 1].Silence? then [] else [items[|items| - 1]]
  }

  lemma {:induction false} SilenceMeansNothing(l: Loading, items: seq<Item>)
    ensures DoAll(l, items) == DoAll(l, Spoken(items))
  {
    if items != [] {
      var front, last := items[..|items| - 1], items[|items| - 1];
      SilenceMeansNothing(l, front);
      if last.Silence? {
        assert Spoken(items) == Spoken(front);
      } else {
        assert Spoken(items)[..|Spoken(items)| - 1] == Spoken(front);
      }
    }
  }

  // ----- the theorem

  /** However its canonical items are printed (blanks around names, values and commas, blank and comment lines between),
      a printable document loads back exactly. */
  lemma LoadInvertsPrint(d: ProfileDocument, ps: seq<Printed>, path: string, was: ProfileDocument)
    requires Printable(d) && AllWellPrinted(ps) && Spoken(Items(ps)) == Canonical(d)
    ensures Load(Some(Text(ps)), path, was) == (Ok, d)
  {
    var start := Reading(NoDocument(), NoSection);
    LinesMean(start, ps);
    SilenceMeansNothing(start, Items(ps));
    CanonicalMeans(d);
  }
}
