// Which documents loading can produce: exactly those that the canonical text can express.
module LoaderImage {
  import opened Types
  import opened CText
  import opened Numbers
  import opened FanTables
  import opened PlanBuilders
  import opened Loader
  import opened LoaderTheorems

  // ----- what every line keeps

  predicate NoNewline(s: string) { forall i | 0 <= i < |s| :: s[i] != '\n' }

  /** A name that came from a line, or none yet. */
  predicate NameFromLine(name: string) { name == "" || (Bare(name) && NoNewline(name)) }

  /** What a document holds at any point of the line loop. */
  predicate Kept(d: ProfileDocument)
  {
    && (!d.hasMode ==> d.mode == Gaming)
    && (if d.hasPower then d.power.AnyPresent() else d.power == NO_LIMITS)
    && (forall f: PowerField :: !d.power.Get(f).present ==> d.power.Get(f) == ABSENT)
    && (if d.hasFan then NameFromLine(d.fan.name) else d.fan == NoFan())
  }

  lemma {:induction false} StripLeftSlice(s: string) returns (i: nat)
    ensures i <= |s| && StripLeft(s) == s[i..] && (StripLeft(s) == "" || !IsSpace(StripLeft(s)[0]))
  {
    i := 0;
    if s != "" && IsSpace(s[0]) {
      i := StripLeftSlice(s[1..]);
      i := i + 1;
    }
  }

  lemma {:induction false} StripRightSlice(s: string) returns (j: nat)
    ensures j <= |s| && StripRight(s) == s[..j] && (StripRight(s) == "" || !IsSpace(StripRight(s)[j - 1]))
    ensures j < |s| ==> IsSpace(s[|s| - 1])
  {
    j := |s|;
    if s != "" && IsSpace(s[|s| - 1]) {
      j := StripRightSlice(s[..|s| - 1]);
    }
  }

  /** Trimming leaves a bare text or nothing, and no newline that was not inside. */
  lemma StripKeeps(s: string)
    requires forall i | 0 <= i < |s| - 1 :: s[i] != '\n'
    ensures Strip(s) == "" || Bare(Strip(s))
    ensures NoNewline(Strip(s))
  {
    var i := StripLeftSlice(s);
    var left := s[i..];
    var j := StripRightSlice(left);
    assert Strip(s) == left[..j];
    if j == |left| && j > 0 {
      assert !IsSpace(left[j - 1]);
    }
  }

  lemma PieceHasOneNewline(content: string)
    requires content != ""
    ensures var piece := content[..PieceLength(content)]; forall i | 0 <= i < |piece| - 1 :: piece[i] != '\n'
  {
  }

  lemma PowerKept(d: ProfileDocument, f: PowerField, v: byte)
    requires Kept(d)
    ensures Kept(d.(hasPower := true, power := WithField(d.power, f, OptByte(true, v))))
  {
    var l := WithField(d.power, f, OptByte(true, v));
    assert forall g: PowerField :: l.Get(g) == if g == f then OptByte(true, v) else d.power.Get(g);
    assert l.Get(f).present;
  }

  lemma EntryKept(section: Section, d: ProfileDocument, key: string, value: string)
    requires Kept(d) && NameFromLine(value)
    ensures EnterIn(section, d, key, value).Entered? ==> Kept(EnterIn(section, d, key, value).doc)
  {
    if section.PowerSection? && PowerKeyOf(key).Some? && ParseU8(value).Value? {
      PowerKept(d, PowerKeyOf(key).value, ParseU8(value).value);
    }
  }

  lemma LineKept(l: Loading, line: string)
    requires l.Reading? && Kept(l.doc) && forall i | 0 <= i < |line| - 1 :: line[i] != '\n'
    ensures Line(l, line).Reading? ==> Kept(Line(l, line).doc)
  {
    var text := Strip(line);
    StripKeeps(line);
    if !Ignored(text) && text[0] != '[' {
      var separator := FindChar(text, '=', 0);
      if separator < |text| {
        StripKeeps(text[separator + 1..]);
        EntryKept(l.section, l.doc, Strip(text[..separator]), Strip(text[separator + 1..]));
      }
    }
  }

  lemma {:induction false} LinesKept(l: Loading, content: string)
    requires l.Reading? && Kept(l.doc)
    ensures Lines(l, content).Reading? ==> Kept(Lines(l, content).doc)
    decreases |content|
  {
    if content != "" {
      var n := PieceLength(content);
      PieceHasOneNewline(content);
      LineKept(l, content[..n]);
      var next := Line(l, content[..n]);
      if next.Reading? {
        LinesKept(next, content[n..]);
      } else {
        BrokenStays(next, content[n..]);
      }
    }
  }

  /** The document before a missing table name is made up from the path. */
  function ReadLines(content: string): Loading { Lines(Reading(NoDocument(), NoSection), content) }

  /** The file gives the name of its fan table, if it has one. */
  predicate NamesItsTable(content: string)
  {
    var l := ReadLines(content); l.Reading? && (l.doc.hasFan ==> l.doc.fan.name != "")
  }

  /** Every accepted document is printable if its fan table, if any, has a bare name, which it has when the file gives
      it. */
  lemma LoadedIsPrintable(content: string, path: string, was: ProfileDocument)
    requires Load(Some(content), path, was).0 == Ok
    ensures var d := Load(Some(content), path, was).1;
      && (Printable(d) <==> (d.hasFan ==> Bare(d.fan.name)))
      && (NamesItsTable(content) ==> Printable(d) && (d.hasFan ==> NoNewline(d.fan.name)))
  {
    NothingIsKept();
    LinesKept(Reading(NoDocument(), NoSection), content);
  }

  lemma NothingIsKept()
    ensures Kept(NoDocument())
  {
    assert forall f: PowerField :: NO_LIMITS.Get(f) == ABSENT;
  }

  // ----- the plain text of a printable document

  function Plain(item: Item): Printed
  {
    match item
    case Silence => Filler("")
    case Header(section) => Title(section, "", "")
    case Setting(key, value) => Assigned(key, value, "", "", "", "")
    case Point(cpu, i, p) => Placed(cpu, i, p, "", "", "", "", "", "", "", "")
  }

  function PlainAll(items: seq<Item>): seq<Printed>
  {
    seq(|items|, i requires 0 <= i < |items| => Plain(items[i]))
  }

  /** An item whose plain line can be read. */
  predicate Sayable(item: Item) { !item.Silence? && WellPrinted(Plain(item)) }

  predicate AllSayable(items: seq<Item>) { forall item | item in items :: Sayable(item) }

  lemma PlainOfItem(item: Item)
    ensures ItemOf(Plain(item)) == item
  {
  }

  lemma {:induction false} SpokenIsAll(items: seq<Item>)
    requires AllSayable(items)
    ensures Spoken(items) == items
  {
    if items != [] {
      var front, last := items[..|items| - 1], items[|items| - 1];
      assert forall item | item in front :: item in items;
      SpokenIsAll(front);
      assert last in items && front + [last] == items;
    }
  }

  lemma {:induction false} PlainItems(items: seq<Item>)
    ensures Items(PlainAll(items)) == items
    decreases |items|
  {
    if items != [] {
      PlainItems(items[1..]);
      assert PlainAll(items)[1..] == PlainAll(items[1..]);
      PlainOfItem(items[0]);
    }
  }

  lemma PlainIsPrinted(items: seq<Item>)
    requires AllSayable(items)
    ensures AllWellPrinted(PlainAll(items)) && Spoken(Items(PlainAll(items))) == items
  {
    PlainItems(items);
    SpokenIsAll(items);
    forall p | p in PlainAll(items)
      ensures WellPrinted(p)
    {
      var i :| 0 <= i < |items| && PlainAll(items)[i] == p;
      assert items[i] in items;
    }
  }

  lemma SettingSayable(key: string, value: string)
    requires KeyText(key) && NoNewline(key) && Bare(value) && NoNewline(value) && |key| + |value| < 200
    ensures Sayable(Setting(key, value))
  {
    var p := Plain(Setting(key, value));
    assert LineText(p) == key + ['='] + value;
  }

  lemma HeaderSayable(section: Section)
    requires !section.NoSection?
    ensures Sayable(Header(section))
  {
    var p := Plain(Header(section));
    assert LineText(p) == ['['] + SectionName(section) + [']'];
    assert NoNewline("mode") && NoNewline("power") && NoNewline("fan");
    assert OneLine(LineText(p));
  }

  lemma DecimalSayable(n: nat)
    ensures Bare(Decimal(n)) && NoNewline(Decimal(n))
  {
    DecimalBare(n);
    DecimalHasNo(n, '\n');
  }

  lemma ByteLength(n: byte)
    ensures |Decimal(n)| <= 3
  {
    assert Ten(3) == 1000;
    DecimalFits(n, 3);
  }

  lemma NoNewlineJoins(a: string, b: string)
    requires NoNewline(a) && NoNewline(b)
    ensures NoNewline(a + b)
  {
  }

  lemma TripletPlain(p: FanPoint)
    ensures var value := TripletText(p, "", "", "", ""); NoNewline(value) && |value| <= 11
  {
    DecimalSayable(p.up);
    DecimalSayable(p.down);
    DecimalSayable(p.duty);
    ByteLength(p.up);
    ByteLength(p.down);
    ByteLength(p.duty);
    var duty, down := "" + Decimal(p.duty), "" + Decimal(p.down) + "";
    NoNewlineJoins([','], duty);
    NoNewlineJoins(down, [','] + duty);
    NoNewlineJoins([','], down + ([','] + duty));
    NoNewlineJoins(Decimal(p.up) + "", [','] + (down + ([','] + duty)));
  }

  lemma PlainAssignment(key: string, value: string)
    ensures "" + Assignment(key, "", "", value) + "" == (key + ['=']) + value
  {
  }

  lemma KeyPlain(cpu: bool, i: nat)
    requires i < POINTS
    ensures NoNewline(PointKey(cpu, i)) && |PointKey(cpu, i)| <= 7
  {
    DecimalSayable(i);
    ByteLength(i);
    assert NoNewline("cpu.") && NoNewline("gpu.");
    NoNewlineJoins(CurvePrefix(cpu), Decimal(i));
  }

  lemma AssignmentOneLine(key: string, value: string)
    requires NoNewline(key) && NoNewline(value) && |key| + |value| < 200
    ensures OneLine("" + Assignment(key, "", "", value) + "")
  {
    PlainAssignment(key, value);
    NoNewlineJoins(key, ['=']);
    NoNewlineJoins(key + ['='], value);
  }

  lemma PointSayable(cpu: bool, i: nat, p: FanPoint)
    requires i < POINTS
    ensures Sayable(Point(cpu, i, p))
  {
    TripletPlain(p);
    KeyPlain(cpu, i);
    AssignmentOneLine(PointKey(cpu, i), TripletText(p, "", "", "", ""));
  }

  lemma SayableConcat(a: seq<Item>, b: seq<Item>)
    requires AllSayable(a) && AllSayable(b)
    ensures AllSayable(a + b)
  {
  }

  lemma {:induction false} CurveSayable(cpu: bool, c: Curve, n: nat)
    requires n <= POINTS
    ensures AllSayable(CurveItems(cpu, c, n))
  {
    if n > 0 {
      CurveSayable(cpu, c, n - 1);
      PointSayable(cpu, n - 1, c[n - 1]);
      SayableConcat(CurveItems(cpu, c, n - 1), [Point(cpu, n - 1, c[n - 1])]);
    }
  }

  lemma PowerKeySayable(f: PowerField)
    ensures KeyText(PowerKey(f)) && NoNewline(PowerKey(f)) && |PowerKey(f)| <= 10
  {
  }

  lemma PowerItemSayable(l: PowerLimits, f: PowerField)
    ensures AllSayable(PowerItem(l, f))
  {
    PowerKeySayable(f);
    DecimalSayable(l.Get(f).value);
    ByteLength(l.Get(f).value);
    SettingSayable(PowerKey(f), Decimal(l.Get(f).value));
  }

  lemma LimitsSayable(l: PowerLimits)
    ensures AllSayable(PowerItems(l))
  {
    PowerItemSayable(l, Pl1);
    PowerItemSayable(l, Pl2);
    PowerItemSayable(l, Pl4);
    PowerItemSayable(l, Tcc);
  }

  lemma FanKeysSayable()
    ensures KeyText("name") && KeyText("activated") && KeyText("fan_control_respective") && KeyText("value")
    ensures NoNewline("name") && NoNewline("activated") && NoNewline("fan_control_respective") && NoNewline("value")
    ensures Bare("true") && NoNewline("true") && Bare("false") && NoNewline("false")
  {
  }

  lemma FanSayable(t: FanTable)
    requires Bare(t.name) && NoNewline(t.name)
    ensures AllSayable(FanItems(t))
  {
    FanKeysSayable();
    SettingSayable("name", t.name);
    SettingSayable("activated", BoolName(t.activated));
    SettingSayable("fan_control_respective", BoolName(t.respective));
    CurveSayable(true, t.cpu, POINTS);
    CurveSayable(false, t.gpu, POINTS);
  }

  lemma ModeNameSayable(mode: Mode)
    ensures Bare(ModeName(mode)) && NoNewline(ModeName(mode))
  {
  }

  lemma CanonicalSayable(d: ProfileDocument)
    requires d.hasFan ==> Bare(d.fan.name) && NoNewline(d.fan.name)
    ensures AllSayable(Canonical(d))
  {
    FanKeysSayable();
    ModeNameSayable(d.mode);
    SettingSayable("value", ModeName(d.mode));
    HeaderSayable(ModeSection);
    HeaderSayable(PowerSection);
    HeaderSayable(FanSection);
    LimitsSayable(d.power);
    if d.hasFan {
      FanSayable(d.fan);
    }
  }

  // ----- the theorem

  ghost predicate Loadable(d: ProfileDocument)
  {
    exists content: string, path: string ::
      NamesItsTable(content) && Load(Some(content), path, NoDocument()) == (Ok, d)
  }

  /** A document can be loaded from a file that names its own fan table if and only if it is printable and that name has
      no line break. */
  lemma ImageOfLoading(d: ProfileDocument)
    ensures Loadable(d) <==> Printable(d) && (d.hasFan ==> NoNewline(d.fan.name))
  {
    if Loadable(d) {
      var content: string, path: string :|
        NamesItsTable(content) && Load(Some(content), path, NoDocument()) == (Ok, d);
      LoadedIsPrintable(content, path, NoDocument());
    }
    if Printable(d) && (d.hasFan ==> NoNewline(d.fan.name)) {
      CanonicalSayable(d);
      PlainIsPrinted(Canonical(d));
      PrintedNames(d, PlainAll(Canonical(d)));
      LoadInvertsPrint(d, PlainAll(Canonical(d)), "", NoDocument());
    }
  }

  /** A printed document names its own table. */
  lemma PrintedNames(d: ProfileDocument, ps: seq<Printed>)
    requires Printable(d) && AllWellPrinted(ps) && Spoken(Items(ps)) == Canonical(d)
    ensures NamesItsTable(Text(ps))
  {
    LinesMean(Reading(NoDocument(), NoSection), ps);
    SilenceMeansNothing(Reading(NoDocument(), NoSection), Items(ps));
    CanonicalMeans(d);
  }
}
