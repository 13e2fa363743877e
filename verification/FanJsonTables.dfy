// A whole fan table written as JSON loads back to the table its header and curves name.
module FanJsonTables {
  import opened Types
  import opened CText
  import opened Keys
  import opened JsonText
  import opened Numbers
  import opened Scanner
  import opened FanTables
  import opened Loader
  import opened FanJson
  import opened FanJsonTheorems

  // ----- the printed table

  /** A table as it is written down: header, points with what separates them, and the blanks before every member and
      after every colon. */
  datatype Sheet = Sheet(name: Text32, activated: bool, respective: bool,
                         cpu: seq<Spaced>, cpuEnd: string, gpu: seq<Spaced>, gpuEnd: string, blank: string)

  predicate Blanks(s: string) { forall i | 0 <= i < |s| :: JsonBlank(s[i]) }

  function FlagText(flag: bool): string { if flag then "true" else "false" }

  function MemberText(blank: string, key: string, value: string): string
  {
    blank + (Quote(key) + ([':'] + (blank + (value + [',']))))
  }

  function Header(t: Sheet): string
  {
    ['{'] + (MemberText(t.blank, "name", Quote(t.name))
             + (MemberText(t.blank, "activated", FlagText(t.activated))
                + MemberText(t.blank, "fan_control_respective", FlagText(t.respective))))
  }

  /** One curve, up to and with its closing bracket, and what follows. */
  function CurvePart(blank: string, key: string, ps: seq<Spaced>, last: string, rest: string): string
  {
    CurveText(blank, key, [':'] + blank, ps, last, rest, PointText)
  }

  function GpuPart(t: Sheet): string { CurvePart(t.blank, "gpu", t.gpu, t.gpuEnd, ['}']) }

  function Body(t: Sheet): string { CurvePart(t.blank, "cpu", t.cpu, t.cpuEnd, [','] + GpuPart(t)) }

  function TableText(t: Sheet): string { Header(t) + Body(t) }

  // ----- passing over text that does not hold a key

  ghost predicate Skips(a: string, more: string, key: string) { Clear(a + more, Quote(key), |a|) }

  lemma SkipsJoin(a: string, b: string, more: string, key: string)
    requires Skips(a, b + more, key) && Skips(b, more, key)
    ensures Skips(a + b, more, key)
  {
    ClearJoins(a, b + more, Quote(key), |b|);
    assert a + (b + more) == (a + b) + more;
  }

  predicate Unquoted(s: string) { forall i | 0 <= i < |s| :: s[i] != '"' }

  lemma UnquotedSkips(a: string, more: string, key: string)
    requires Unquoted(a)
    ensures Skips(a, more, key)
  {
    UnquotedClear(a, more, key);
  }

  lemma BlanksUnquoted(s: string)
    requires Blanks(s)
    ensures Unquoted(s) && Unquoted([':'] + s)
  {
  }

  /** A value that cannot be taken for the key. */
  ghost predicate Apart(value: string, key: string)
  {
    Unquoted(value) || exists s: string :: value == Quote(s) && PlainText(s) && s != key
  }

  lemma ValueSkips(value: string, more: string, key: string)
    requires Apart(value, key) && Name(key)
    ensures Skips(value, [','] + more, key)
  {
    if Unquoted(value) {
      UnquotedSkips(value, [','] + more, key);
    } else {
      var s: string :| value == Quote(s) && PlainText(s) && s != key;
      QuotedClear(s, [','] + more, key);
    }
  }

  lemma MemberSkips(blank: string, name: string, value: string, more: string, key: string)
    requires Blanks(blank) && Word(name) && Name(key) && name != key && Apart(value, key)
    ensures Skips(MemberText(blank, name, value), more, key)
  {
    BlanksUnquoted(blank);
    ValueSkips(value, more, key);
    UnquotedSkips([','], more, key);
    SkipsJoin(value, [','], more, key);
    KeySkips(blank, name, value + [','], more, key);
    assert Quote(name) + (([':'] + blank) + (value + [','])) == Quote(name) + ([':'] + (blank + (value + [','])));
  }

  /** A key with the blanks around it, in front of text without a match. */
  lemma KeySkips(blank: string, name: string, tail: string, more: string, key: string)
    requires Blanks(blank) && Word(name) && Name(key) && name != key && Skips(tail, more, key)
    ensures Skips(blank + (Quote(name) + (([':'] + blank) + tail)), more, key)
  {
    BlanksUnquoted(blank);
    var colon := [':'] + blank;
    UnquotedSkips(colon, tail + more, key);
    SkipsJoin(colon, tail, more, key);
    QuotedClear(name, (colon + tail) + more, key);
    SkipsJoin(Quote(name), colon + tail, more, key);
    UnquotedSkips(blank, (Quote(name) + (colon + tail)) + more, key);
    SkipsJoin(blank, Quote(name) + (colon + tail), more, key);
  }

  lemma PointSkips(p: FanPoint, more: string, key: string)
    requires Name(key) && key != "up" && key != "down" && key != "duty"
    ensures Skips(PointText(p), more, key)
  {
    Words();
    StepsSpell(p);
    var last := Quote("duty") + [':'] + Decimal(p.duty);
    NumberSkips("duty", p.duty, ['}'] + more, key);
    UnquotedSkips(['}'], more, key);
    SkipsJoin(last, ['}'], more, key);
    CommaSkips("down", p.down, (last + ['}']) + more, key);
    SkipsJoin(Step("down", p.down), last + ['}'], more, key);
    CommaSkips("up", p.up, (Step("down", p.down) + (last + ['}'])) + more, key);
    SkipsJoin(Step("up", p.up), Step("down", p.down) + (last + ['}']), more, key);
    var inside := Step("up", p.up) + (Step("down", p.down) + (last + ['}']));
    UnquotedSkips(['{'], inside + more, key);
    SkipsJoin(['{'], inside, more, key);
    Regroup(['{'], Step("up", p.up), Step("down", p.down), last, ['}']);
  }

  lemma NumberSkips(name: string, n: byte, more: string, key: string)
    requires Word(name) && Name(key) && name != key
    ensures Skips(Quote(name) + [':'] + Decimal(n), more, key)
  {
    NumberClear(name, n, more, key);
    SpellOne(name, n, more);
  }

  lemma CommaSkips(name: string, n: byte, more: string, key: string)
    requires Word(name) && Name(key) && name != key
    ensures Skips(Step(name, n), more, key)
  {
    NumberSkips(name, n, [','] + more, key);
    UnquotedSkips([','], more, key);
    SkipsJoin(Quote(name) + [':'] + Decimal(n), [','], more, key);
  }

  predicate Quiet(ps: seq<Spaced>, last: string)
  {
    Gaps(ps) && Gap(last) && Unquoted(last) && forall p | p in ps :: Unquoted(p.gap)
  }

  lemma QuietApart(ps: seq<Spaced>, last: string)
    requires Quiet(ps, last) && ps != []
    ensures Unquoted(ps[0].gap) && Quiet(ps[1..], last)
  {
    assert ps[0] in ps;
  }

  lemma {:induction false} ArraySkips(ps: seq<Spaced>, last: string, rest: string, more: string, key: string)
    requires Quiet(ps, last) && Name(key) && key != "up" && key != "down" && key != "duty" && Skips(rest, more, key)
    ensures Skips(ArrayText(ps, last, rest, PointText), more, key)
    decreases |ps|
  {
    if ps == [] {
      UnquotedSkips([']'], rest + more, key);
      SkipsJoin([']'], rest, more, key);
      UnquotedSkips(last, ([']'] + rest) + more, key);
      SkipsJoin(last, [']'] + rest, more, key);
    } else {
      QuietApart(ps, last);
      var tail := ArrayText(ps[1..], last, rest, PointText);
      ArraySkips(ps[1..], last, rest, more, key);
      PointSkips(ps[0].point, tail + more, key);
      SkipsJoin(PointText(ps[0].point), tail, more, key);
      UnquotedSkips(ps[0].gap, (PointText(ps[0].point) + tail) + more, key);
      SkipsJoin(ps[0].gap, PointText(ps[0].point) + tail, more, key);
    }
  }

  lemma {:induction false} ArrayThen(ps: seq<Spaced>, last: string, rest: string, more: string)
    ensures ArrayText(ps, last, rest, PointText) + more == ArrayText(ps, last, rest + more, PointText)
    decreases |ps|
  {
    if ps == [] {
      assert (last + ([']'] + rest)) + more == last + ([']'] + (rest + more));
    } else {
      ArrayThen(ps[1..], last, rest, more);
      var gap, point, tail := ps[0].gap, PointText(ps[0].point), ArrayText(ps[1..], last, rest, PointText);
      assert (gap + (point + tail)) + more == gap + (point + (tail + more));
    }
  }

  // ----- reading one member

  lemma {:induction false} BlanksEnd(text: string, at: nat, end: nat)
    requires at <= end <= |text| && (forall i | at <= i < end :: JsonBlank(text[i])) &&
      (end < |text| ==> !JsonBlank(text[end]))
    ensures SkipJsonBlanks(text, at) == end
    decreases end - at
  {
    if at < end {
      BlanksEnd(text, at + 1, end);
    }
  }

  lemma MemberShape(before: string, blank: string, key: string, value: string, more: string)
    ensures before + (MemberText(blank, key, value) + more)
      == (before + blank) + (Quote(key) + ([':'] + (blank + (value + ([','] + more)))))
  {
    var inner := value + ([','] + more);
    assert (value + [',']) + more == inner;
    assert (blank + (value + [','])) + more == blank + inner;
    assert ([':'] + (blank + (value + [',']))) + more == [':'] + (blank + inner);
    assert (Quote(key) + ([':'] + (blank + (value + [','])))) + more == Quote(key) + ([':'] + (blank + inner));
    assert MemberText(blank, key, value) + more == blank + (Quote(key) + ([':'] + (blank + inner)));
  }

  lemma BlankMoves(before: string, blank: string, key: string, tail: string)
    requires Blanks(blank) && Clear(before + (blank + (Quote(key) + tail)), Quote(key), |before|)
    ensures before + (blank + (Quote(key) + tail)) == (before + blank) + (Quote(key) + tail)
    ensures Clear((before + blank) + (Quote(key) + tail), Quote(key), |before + blank|)
  {
    BlanksUnquoted(blank);
    UnquotedSkips(blank, Quote(key) + tail, key);
    ClearJoins(before, blank + (Quote(key) + tail), Quote(key), |blank|);
    assert before + (blank + (Quote(key) + tail)) == (before + blank) + (Quote(key) + tail);
  }

  /** After its key and the blanks, the value is where it was printed. */
  lemma ValueReads(before: string, blank: string, key: string, tail: string)
    requires Blanks(blank) && Word(key) && tail != "" && !JsonBlank(tail[0])
    requires Clear(before + (Quote(key) + ([':'] + (blank + tail))), Quote(key), |before|)
    ensures var json := before + (Quote(key) + ([':'] + (blank + tail))); var at := ValueAfter(json, Quote(key));
      at.Some? && at.value <= |json| && json[at.value..] == tail
  {
    var json := before + (Quote(key) + ([':'] + (blank + tail)));
    ColonHere(json, before, key, blank + tail);
    ValueHere(json, Quote(key), |before|, |before| + |key| + 3, blank, tail);
  }

  lemma ValueHere(json: string, key: string, found: nat, at: nat, blank: string, tail: string)
    requires Blanks(blank) && tail != "" && !JsonBlank(tail[0]) && 0 < at <= |json|
    requires KeyAt(json, key, found, at - 1) && json[at..] == blank + tail
    ensures var value := ValueAfter(json, key); value.Some? && value.value <= |json| && json[value.value..] == tail
  {
    CutAt(json, at);
    BlanksThen(json[..at], blank, tail);
  }

  lemma CutAt(text: string, at: nat)
    requires at <= |text|
    ensures text == text[..at] + text[at..] && |text[..at]| == at
  {
  }

  lemma BlanksThen(front: string, blank: string, tail: string)
    requires Blanks(blank) && tail != "" && !JsonBlank(tail[0])
    ensures var text := front + (blank + tail); var end := |front| + |blank|;
      SkipJsonBlanks(text, |front|) == end && end <= |text| && text[end..] == tail
  {
    var text, end := front + (blank + tail), |front| + |blank|;
    forall i | |front| <= i < end
      ensures JsonBlank(text[i])
    {
      assert text[i] == blank[i - |front|];
    }
    assert text[end] == tail[0];
    BlanksEnd(text, |front|, end);
  }

  lemma FlagReads(before: string, blank: string, key: string, flag: bool, more: string, otherwise: bool)
    requires Blanks(blank) && Word(key)
    requires Clear(before + (MemberText(blank, key, FlagText(flag)) + more), Quote(key), |before|)
    ensures ParseFlag(before + (MemberText(blank, key, FlagText(flag)) + more), Quote(key), otherwise) == flag
  {
    var tail := FlagText(flag) + ([','] + more);
    MemberShape(before, blank, key, FlagText(flag), more);
    var inner := [':'] + (blank + tail);
    assert before + (blank + (Quote(key) + inner)) == (before + blank) + (Quote(key) + inner);
    BlankMoves(before, blank, key, inner);
    assert tail[0] == FlagText(flag)[0];
    ValueReads(before + blank, blank, key, tail);
    assert FlagText(flag) <= tail;
  }

  lemma NoKeyNoFlag(json: string, key: string, otherwise: bool)
    requires Clear(json, Quote(key), |json|)
    ensures ParseFlag(json, Quote(key), otherwise) == otherwise
  {
  }

  lemma StringReads(before: string, blank: string, key: string, s: string, more: string, capacity: nat)
    requires Blanks(blank) && Word(key) && PlainText(s) && |s| < capacity
    requires Clear(before + (MemberText(blank, key, Quote(s)) + more), Quote(key), |before|)
    ensures ParseString(before + (MemberText(blank, key, Quote(s)) + more), Quote(key), capacity) == Some(s)
  {
    var rest := [','] + more;
    MemberShape(before, blank, key, Quote(s), more);
    var inner := [':'] + (blank + (Quote(s) + rest));
    assert before + (blank + (Quote(key) + inner)) == (before + blank) + (Quote(key) + inner);
    BlankMoves(before, blank, key, inner);
    StringAfter(before + blank, blank, key, s, rest, capacity);
  }

  lemma StringAfter(before: string, blank: string, key: string, s: string, rest: string, capacity: nat)
    requires Blanks(blank) && Word(key) && PlainText(s) && |s| < capacity
    requires Clear(before + (Quote(key) + ([':'] + (blank + (Quote(s) + rest)))), Quote(key), |before|)
    ensures ParseString(before + (Quote(key) + ([':'] + (blank + (Quote(s) + rest)))), Quote(key), capacity) == Some(s)
  {
    var json := before + (Quote(key) + ([':'] + (blank + (Quote(s) + rest))));
    ColonHere(json, before, key, blank + (Quote(s) + rest));
    StringHere(json, Quote(key), |before|, |before| + |key| + 2, blank, s, rest, capacity);
  }

  /** The search for the key stops at `found`, and its colon is the next one. */
  predicate KeyAt(json: string, key: string, found: nat, colon: nat)
  {
    && found <= colon < |json| && Find(json, key, 0) == found && MatchesAt(json, key, found)
    && FindChar(json, ':', found) == colon
  }

  /** The first quoted text after the colon. */
  predicate QuotedAt(json: string, colon: nat, open: nat, s: string)
  {
    && colon <= |json| && FindChar(json, '"', colon) == open && open + 1 + |s| < |json|
    && FindChar(json, '"', open + 1) == open + 1 + |s| && json[open + 1..open + 1 + |s|] == s
  }

  lemma ColonHere(json: string, before: string, key: string, more: string)
    requires Word(key) && json == before + (Quote(key) + ([':'] + more)) && Clear(json, Quote(key), |before|)
    ensures KeyAt(json, Quote(key), |before|, |before| + |key| + 2)
    ensures json[|before| + |key| + 2..] == [':'] + more && json[|before| + |key| + 3..] == more
  {
    ColonAfterKey(before, key, more);
    AfterColon(before, key, more);
    assert json == (before + Quote(key)) + ([':'] + more);
  }

  lemma StringHere(json: string, key: string, found: nat, colon: nat, blank: string, s: string, rest: string,
                   capacity: nat)
    requires Blanks(blank) && PlainText(s) && |s| < capacity
    requires KeyAt(json, key, found, colon) && json[colon..] == [':'] + (blank + (Quote(s) + rest))
    ensures ParseString(json, key, capacity) == Some(s)
  {
    QuotesHere(json, colon, blank, s, rest);
    StringAt(json, key, capacity, found, colon, colon + 1 + |blank|, s);
  }

  lemma QuotesHere(json: string, colon: nat, blank: string, s: string, rest: string)
    requires Blanks(blank) && PlainText(s) && colon <= |json| && json[colon..] == [':'] + (blank + (Quote(s) + rest))
    ensures QuotedAt(json, colon, colon + 1 + |blank|, s)
  {
    CutAt(json, colon);
    QuotesAround(json[..colon], blank, s, rest);
  }

  lemma StringAt(json: string, key: string, capacity: nat, found: nat, colon: nat, open: nat, s: string)
    requires KeyAt(json, key, found, colon) && QuotedAt(json, colon, open, s) && |s| < capacity
    ensures ParseString(json, key, capacity) == Some(s)
  {
  }

  /** The two quotes after a colon. */
  lemma QuotesAround(before: string, blank: string, s: string, rest: string)
    requires Blanks(blank) && PlainText(s)
    ensures var json := before + ([':'] + (blank + (Quote(s) + rest))); var open := |before| + 1 + |blank|;
      && FindChar(json, '"', |before|) == open && open + 1 + |s| < |json|
      && FindChar(json, '"', open + 1) == open + 1 + |s| && json[open + 1..open + 1 + |s|] == s
  {
    var middle := [':'] + blank;
    var json := before + ([':'] + (blank + (Quote(s) + rest)));
    BlanksUnquoted(blank);
    assert Quote(s) + rest == ['"'] + (s + (['"'] + rest));
    assert [':'] + (blank + (Quote(s) + rest)) == middle + (['"'] + (s + (['"'] + rest)));
    FindCharAfter(before, middle, '"', s + (['"'] + rest));
    var front := before + (middle + ['"']);
    assert json == front + (s + (['"'] + rest));
    FindCharAfter(front, s, '"', rest);
    MiddleOf(front, s, ['"'] + rest);
  }

  // ----- the whole table

  /** Every text of the sheet means itself: nothing needs escaping, and no gap holds a quote or a bracket. */
  predicate Writable(t: Sheet)
  {
    Blanks(t.blank) && PlainText(t.name) && Quiet(t.cpu, t.cpuEnd) && Quiet(t.gpu, t.gpuEnd)
  }

  lemma KeysOfTables()
    ensures Word("name") && Word("activated") && Word("fan_control_respective") && Word("cpu") && Word("gpu")
    ensures Name("Activated") && Name("FanControlRespective")
  {
  }

  function NamePart(t: Sheet): string { MemberText(t.blank, "name", Quote(t.name)) }
  function ActivatedPart(t: Sheet): string { MemberText(t.blank, "activated", FlagText(t.activated)) }
  function RespectivePart(t: Sheet): string { MemberText(t.blank, "fan_control_respective", FlagText(t.respective)) }

  lemma FlagsUnquoted(flag: bool, key: string)
    ensures Apart(FlagText(flag), key)
  {
    assert Unquoted("true") && Unquoted("false");
  }

  /** A key searched for after the name. */
  predicate Later(t: Sheet, key: string) { Name(key) && key != "name" && key != t.name }

  lemma NameSkips(t: Sheet, more: string, key: string)
    requires Writable(t) && Later(t, key)
    ensures Skips(['{'] + NamePart(t), more, key)
  {
    KeysOfTables();
    assert Apart(Quote(t.name), key);
    MemberSkips(t.blank, "name", Quote(t.name), more, key);
    UnquotedSkips(['{'], NamePart(t) + more, key);
    SkipsJoin(['{'], NamePart(t), more, key);
  }

  lemma ActivatedSkips(t: Sheet, more: string, key: string)
    requires Writable(t) && Later(t, key) && key != "activated"
    ensures Skips((['{'] + NamePart(t)) + ActivatedPart(t), more, key)
  {
    KeysOfTables();
    FlagsUnquoted(t.activated, key);
    MemberSkips(t.blank, "activated", FlagText(t.activated), more, key);
    NameSkips(t, ActivatedPart(t) + more, key);
    SkipsJoin(['{'] + NamePart(t), ActivatedPart(t), more, key);
  }

  lemma HeaderShape(t: Sheet)
    ensures Header(t) == ((['{'] + NamePart(t)) + ActivatedPart(t)) + RespectivePart(t)
  {
  }

  lemma HeaderSkips(t: Sheet, more: string, key: string)
    requires Writable(t) && Later(t, key) && key != "activated" && key != "fan_control_respective"
    ensures Skips(Header(t), more, key)
  {
    KeysOfTables();
    FlagsUnquoted(t.respective, key);
    MemberSkips(t.blank, "fan_control_respective", FlagText(t.respective), more, key);
    ActivatedSkips(t, RespectivePart(t) + more, key);
    SkipsJoin((['{'] + NamePart(t)) + ActivatedPart(t), RespectivePart(t), more, key);
    HeaderShape(t);
  }

  predicate NotInPoints(key: string) { Name(key) && key != "up" && key != "down" && key != "duty" }

  lemma CurveSkips(blank: string, name: string, ps: seq<Spaced>, last: string, rest: string, more: string, key: string)
    requires Blanks(blank) && Word(name) && Quiet(ps, last) && NotInPoints(key) && key != name && Skips(rest, more, key)
    ensures Skips(CurvePart(blank, name, ps, last, rest), more, key)
  {
    var inside := ArrayText(ps, last, rest, PointText);
    ArraySkips(ps, last, rest, more, key);
    UnquotedSkips(['['], inside + more, key);
    SkipsJoin(['['], inside, more, key);
    KeySkips(blank, name, ['['] + inside, more, key);
  }

  /** No text of the sheet holds a key that was not written. */
  lemma NoOtherKey(t: Sheet, key: string)
    requires Writable(t) && Later(t, key) && NotInPoints(key)
    requires key != "activated" && key != "fan_control_respective" && key != "cpu" && key != "gpu"
    ensures Clear(TableText(t), Quote(key), |TableText(t)|)
  {
    KeysOfTables();
    UnquotedSkips(['}'], "", key);
    CurveSkips(t.blank, "gpu", t.gpu, t.gpuEnd, ['}'], "", key);
    UnquotedSkips([','], GpuPart(t) + "", key);
    SkipsJoin([','], GpuPart(t), "", key);
    CurveSkips(t.blank, "cpu", t.cpu, t.cpuEnd, [','] + GpuPart(t), "", key);
    HeaderSkips(t, Body(t) + "", key);
    SkipsJoin(Header(t), Body(t), "", key);
    assert TableText(t) + "" == TableText(t);
  }

  lemma KeysApart()
    ensures NotInPoints("Activated") && NotInPoints("FanControlRespective") && NotInPoints("gpu") && NotInPoints("cpu")
    ensures "Activated" != "name" && "Activated" != "activated" && "Activated" != "fan_control_respective" &&
      "Activated" != "cpu"
      && "Activated" != "gpu"
    ensures "FanControlRespective" != "name" && "FanControlRespective" != "activated"
      && "FanControlRespective" != "fan_control_respective" && "FanControlRespective" != "cpu" &&
          "FanControlRespective" != "gpu"
    ensures "gpu" != "cpu" && "gpu" != "name" && "cpu" != "name" && "activated" != "name" &&
      "fan_control_respective" != "name"
    ensures "cpu" != "activated" && "cpu" != "fan_control_respective" && "gpu" != "activated" &&
      "gpu" != "fan_control_respective"
    ensures "fan_control_respective" != "activated"
  {
    assert |"name"| == 4 && |"activated"| == 9 && |"fan_control_respective"| == 22 && |"cpu"| == 3 && |"gpu"| == 3;
    assert |"Activated"| == 9 && |"FanControlRespective"| == 20 && |"up"| == 2 && |"down"| == 4 && |"duty"| == 4;
    assert "Activated"[0] == 'A' && "activated"[0] == 'a' && "cpu"[0] == 'c' && "gpu"[0] == 'g';
  }

  lemma NameReads(t: Sheet)
    requires Writable(t)
    ensures ParseString(TableText(t), NameKey(), 32) == Some(t.name)
  {
    KeysOfTables();
    HeaderShape(t);
    var body := Body(t);
    var more := ActivatedPart(t) + (RespectivePart(t) + body);
    assert TableText(t) == ['{'] + (NamePart(t) + more);
    UnquotedSkips(['{'], NamePart(t) + more, "name");
    StringReads(['{'], t.blank, "name", t.name, more, 32);
  }

  lemma Behind(t: Sheet)
    ensures var before := ['{'] + NamePart(t);
      && TableText(t) == before + (ActivatedPart(t) + (RespectivePart(t) + Body(t)))
      && TableText(t) == (before + ActivatedPart(t)) + (RespectivePart(t) + Body(t))
  {
    HeaderShape(t);
    var a, b, c, d := ['{'] + NamePart(t), ActivatedPart(t), RespectivePart(t), Body(t);
    FourParts(a, b, c, d);
  }

  lemma FourParts(a: string, b: string, c: string, d: string)
    ensures ((a + b) + c) + d == a + (b + (c + d)) && ((a + b) + c) + d == (a + b) + (c + d)
  {
  }

  /** What the loader makes of one printed curve. */
  function CurveOutcome(ps: seq<Spaced>): Parsed<Curve>
  {
    PointCount(ps);
    if ps == [] then Bad(ParseError) else if |ps| <= POINTS then Value(Padded(PointsOf(ps))) else Bad(RangeError)
  }

  lemma CurvePartLoads(front: string, blank: string, key: string, ps: seq<Spaced>, last: string, rest: string)
    requires Blanks(blank) && Word(key) && Quiet(ps, last) && Skips(front, CurvePart(blank, key, ps, last, rest), key)
    ensures ParseCurve(front + CurvePart(blank, key, ps, last, rest), Quote(key)) == CurveOutcome(ps)
  {
    var tail := ([':'] + blank) + (['['] + ArrayText(ps, last, rest, PointText));
    BlankMoves(front, blank, key, tail);
    assert forall i | 0 <= i < |[':'] + blank| :: ([':'] + blank)[i] != '[';
    CurveLoads(front + blank, key, [':'] + blank, ps, last, rest);
  }

  lemma CpuLoads(t: Sheet)
    requires Writable(t) && t.name != "cpu"
    ensures ParseCurve(TableText(t), CpuKey()) == CurveOutcome(t.cpu)
  {
    KeysOfTables();
    KeysApart();
    HeaderSkips(t, Body(t), "cpu");
    CurvePartLoads(Header(t), t.blank, "cpu", t.cpu, t.cpuEnd, [','] + GpuPart(t));
  }

  /** The header and the first curve, up to the second. */
  function Front(t: Sheet): string { Header(t) + CurvePart(t.blank, "cpu", t.cpu, t.cpuEnd, [',']) }

  lemma CurvePartThen(blank: string, key: string, ps: seq<Spaced>, last: string, rest: string, more: string)
    ensures CurvePart(blank, key, ps, last, rest) + more == CurvePart(blank, key, ps, last, rest + more)
  {
    ArrayThen(ps, last, rest, more);
    var colon, inside := [':'] + blank, ArrayText(ps, last, rest, PointText);
    assert (['['] + inside) + more == ['['] + (inside + more);
    assert (colon + (['['] + inside)) + more == colon + (['['] + (inside + more));
    assert (Quote(key) + (colon + (['['] + inside))) + more == Quote(key) + (colon + (['['] + (inside + more)));
  }

  lemma FrontThen(t: Sheet)
    ensures TableText(t) == Front(t) + GpuPart(t)
  {
    CurvePartThen(t.blank, "cpu", t.cpu, t.cpuEnd, [','], GpuPart(t));
    var first := CurvePart(t.blank, "cpu", t.cpu, t.cpuEnd, [',']);
    assert Header(t) + (first + GpuPart(t)) == (Header(t) + first) + GpuPart(t);
  }

  lemma FrontSkips(t: Sheet)
    requires Writable(t) && t.name != "gpu"
    ensures Skips(Front(t), GpuPart(t), "gpu")
  {
    KeysOfTables();
    KeysApart();
    var first := CurvePart(t.blank, "cpu", t.cpu, t.cpuEnd, [',']);
    UnquotedSkips([','], GpuPart(t), "gpu");
    CurveSkips(t.blank, "cpu", t.cpu, t.cpuEnd, [','], GpuPart(t), "gpu");
    HeaderSkips(t, first + GpuPart(t), "gpu");
    SkipsJoin(Header(t), first, GpuPart(t), "gpu");
  }

  lemma GpuLoads(t: Sheet)
    requires Writable(t) && t.name != "gpu"
    ensures ParseCurve(TableText(t), GpuKey()) == CurveOutcome(t.gpu)
  {
    KeysOfTables();
    FrontThen(t);
    FrontSkips(t);
    CurvePartLoads(Front(t), t.blank, "gpu", t.gpu, t.gpuEnd, ['}']);
  }

  // ----- a name that is searched for: the search stops at the name itself

  predicate Unbracketed(s: string) { forall i | 0 <= i < |s| :: s[i] != '[' }

  lemma MemberUnbracketed(blank: string, key: string, flag: bool)
    requires Blanks(blank) && Word(key)
    ensures Unbracketed(MemberText(blank, key, FlagText(flag)))
  {
    assert Unbracketed("true") && Unbracketed("false") && Unbracketed(key) && Unbracketed(blank);
  }

  /** What stands between a name and the bracket of the first curve. */
  function Between(t: Sheet): string
  {
    ([','] + (ActivatedPart(t) + RespectivePart(t))) + (t.blank + (Quote("cpu") + ([':'] + t.blank)))
  }

  lemma UnbracketedJoin(a: string, b: string)
    requires Unbracketed(a) && Unbracketed(b)
    ensures Unbracketed(a + b)
  {
  }

  lemma BetweenUnbracketed(t: Sheet)
    requires Blanks(t.blank)
    ensures Unbracketed(Between(t))
  {
    KeysOfTables();
    MemberUnbracketed(t.blank, "activated", t.activated);
    MemberUnbracketed(t.blank, "fan_control_respective", t.respective);
    UnbracketedJoin(ActivatedPart(t), RespectivePart(t));
    UnbracketedJoin([','], ActivatedPart(t) + RespectivePart(t));
    assert Unbracketed(Quote("cpu")) && Unbracketed([':'] + t.blank);
    UnbracketedJoin(Quote("cpu"), [':'] + t.blank);
    UnbracketedJoin(t.blank, Quote("cpu") + ([':'] + t.blank));
    UnbracketedJoin([','] + (ActivatedPart(t) + RespectivePart(t)), t.blank + (Quote("cpu") + ([':'] + t.blank)));
  }

  function BeforeName(t: Sheet): string { ['{'] + (t.blank + (Quote("name") + (([':'] + t.blank) + ""))) }

  lemma NamedText(t: Sheet)
    ensures TableText(t) == CurveText(BeforeName(t), t.name, Between(t), t.cpu, t.cpuEnd, [','] + GpuPart(t), PointText)
  {
    HeaderShape(t);
    var array_ := ['['] + ArrayText(t.cpu, t.cpuEnd, [','] + GpuPart(t), PointText);
    var a, b, q := ActivatedPart(t), RespectivePart(t), Quote("cpu");
    assert Body(t) == (t.blank + (q + ([':'] + t.blank))) + array_;
    assert Between(t) + array_ == [','] + (a + (b + Body(t)));
    assert ['{'] + NamePart(t) == BeforeName(t) + (Quote(t.name) + [',']);
    FourParts(BeforeName(t) + (Quote(t.name) + [',']), a, b, Body(t));
    NameThen(BeforeName(t), Quote(t.name), a + (b + Body(t)));
  }

  lemma NameThen(before: string, name: string, more: string)
    ensures (before + (name + [','])) + more == before + (name + ([','] + more))
  {
  }

  lemma BeforeNameSkips(t: Sheet, more: string)
    requires Blanks(t.blank) && Name(t.name) && t.name != "name"
    ensures Skips(BeforeName(t), more, t.name)
  {
    KeysOfTables();
    var inner := t.blank + (Quote("name") + (([':'] + t.blank) + ""));
    KeySkips(t.blank, "name", "", more, t.name);
    UnquotedSkips(['{'], inner + more, t.name);
    SkipsJoin(['{'], inner, more, t.name);
  }

  /** A curve search then finds the CPU curve. */
  lemma NameFindsCpu(t: Sheet)
    requires Writable(t) && Word(t.name) && t.name != "name"
    ensures ParseCurve(TableText(t), Quote(t.name)) == CurveOutcome(t.cpu)
  {
    var rest := [','] + GpuPart(t);
    NamedText(t);
    BeforeNameSkips(t, Quote(t.name) + (Between(t) + (['['] + ArrayText(t.cpu, t.cpuEnd, rest, PointText))));
    BetweenUnbracketed(t);
    CurveLoads(BeforeName(t), t.name, Between(t), t.cpu, t.cpuEnd, rest);
    PointCount(t.cpu);
  }

  /** What stands between a name and the first colon after it. */
  function ToColon(t: Sheet): string { Quote(t.name) + ([','] + (t.blank + Quote("activated"))) }

  lemma NoColonBefore(t: Sheet)
    requires Blanks(t.blank) && Name(t.name)
    ensures forall q: nat | q < |ToColon(t)| :: ToColon(t)[q] != ':'
  {
    forall q: nat | q < |Quote(t.name)|
      ensures Quote(t.name)[q] != ':'
    {
      if 0 < q <= |t.name| {
        assert Quote(t.name)[q] == t.name[q - 1];
      }
    }
    assert forall q: nat | q < |"activated"| :: "activated"[q] != ':';
    assert forall q: nat | q < |Quote("activated")| :: Quote("activated")[q] != ':';
  }

  /** The text from the value of the first flag on. */
  function AfterFlag(t: Sheet): string { FlagText(t.activated) + ([','] + (RespectivePart(t) + Body(t))) }

  lemma ActivatedThen(t: Sheet, more: string)
    ensures ActivatedPart(t) + more ==
      (t.blank + Quote("activated")) + ([':'] + (t.blank + (FlagText(t.activated) + ([','] + more))))
  {
    MemberShape("", t.blank, "activated", FlagText(t.activated), more);
    NothingBefore(ActivatedPart(t) + more);
    NothingBefore(t.blank);
    SumMoves(t.blank, Quote("activated"), [':'] + (t.blank + (FlagText(t.activated) + ([','] + more))));
  }

  lemma SumMoves(a: string, b: string, c: string)
    ensures a + (b + c) == (a + b) + c
  {
  }

  lemma NothingBefore(s: string)
    ensures "" + s == s
  {
  }

  lemma NameShape(t: Sheet)
    ensures ['{'] + NamePart(t) == BeforeName(t) + (Quote(t.name) + [','])
  {
    var q, tail := Quote("name"), Quote(t.name) + [','];
    assert ([':'] + t.blank) + "" == [':'] + t.blank;
    assert q + ([':'] + (t.blank + tail)) == (q + ([':'] + t.blank)) + tail;
    assert t.blank + ((q + ([':'] + t.blank)) + tail) == (t.blank + (q + ([':'] + t.blank))) + tail;
  }

  lemma ColonText(t: Sheet)
    ensures TableText(t) == BeforeName(t) + (ToColon(t) + ([':'] + (t.blank + AfterFlag(t))))
    ensures TableText(t) ==
      BeforeName(t) + (Quote(t.name) + (([','] + (t.blank + Quote("activated"))) + ([':'] + (t.blank + AfterFlag(t)))))
  {
    Behind(t);
    ActivatedThen(t, RespectivePart(t) + Body(t));
    NameShape(t);
    ColonMoves(BeforeName(t), Quote(t.name), t.blank + Quote("activated"), [':'] + (t.blank + AfterFlag(t)));
  }

  lemma ColonMoves(before: string, name: string, middle: string, rest: string)
    ensures (before + (name + [','])) + (middle + rest) == before + ((name + ([','] + middle)) + rest)
    ensures (before + (name + [','])) + (middle + rest) == before + (name + (([','] + middle) + rest))
  {
  }

  /** A flag search stops at the name, and its colon is the first flag's. */
  lemma NameKeyAt(t: Sheet)
    requires Writable(t) && Name(t.name) && t.name != "name"
    ensures var at := |BeforeName(t)| + |ToColon(t)|;
      KeyAt(TableText(t), Quote(t.name), |BeforeName(t)|, at) && TableText(t)[at + 1..] == t.blank + AfterFlag(t)
  {
    var middle, rest := [','] + (t.blank + Quote("activated")), [':'] + (t.blank + AfterFlag(t));
    ColonText(t);
    BeforeNameSkips(t, Quote(t.name) + (middle + rest));
    KeyFound(BeforeName(t), t.name, middle + rest);
    NoColonBefore(t);
    FindCharAfter(BeforeName(t), ToColon(t), ':', t.blank + AfterFlag(t));
    RestAt(BeforeName(t), ToColon(t), ':', t.blank + AfterFlag(t));
  }

  lemma FlagAt(json: string, key: string, found: nat, colon: nat, blank: string, flag: bool, rest: string,
               otherwise: bool)
    requires Blanks(blank) && KeyAt(json, key, found, colon) && json[colon + 1..] == blank + (FlagText(flag) + rest)
    ensures ParseFlag(json, key, otherwise) == flag
  {
    var tail := FlagText(flag) + rest;
    assert tail[0] == FlagText(flag)[0];
    ValueHere(json, key, found, colon + 1, blank, tail);
    assert FlagText(flag) <= tail;
  }

  /** So it reads the first flag. */
  lemma NameFindsActivated(t: Sheet, otherwise: bool)
    requires Writable(t) && Name(t.name) && t.name != "name"
    ensures ParseFlag(TableText(t), Quote(t.name), otherwise) == t.activated
  {
    NameKeyAt(t);
    FlagAt(TableText(t), Quote(t.name), |BeforeName(t)|, |BeforeName(t)| + |ToColon(t)|, t.blank, t.activated,
           [','] + (RespectivePart(t) + Body(t)), otherwise);
  }

  lemma RestAt(before: string, middle: string, c: char, more: string)
    ensures var text := before + (middle + ([c] + more)); var at := |before| + |middle| + 1;
      at <= |text| && text[at..] == more
  {
  }

  // ----- what loads

  lemma KeysLater(t: Sheet, key: string)
    requires key in {"activated", "Activated", "fan_control_respective", "FanControlRespective"} && t.name != key
    ensures Later(t, key) && NotInPoints(key) && key != "cpu" && key != "gpu"
  {
    KeysOfTables();
    KeysApart();
  }

  lemma ActivatedReads(t: Sheet)
    requires Writable(t)
    ensures ParseFlag(TableText(t), Quote("activated"), true) == t.activated
  {
    KeysOfTables();
    KeysApart();
    if t.name == "activated" {
      NameFindsActivated(t, true);
    } else {
      Behind(t);
      NameSkips(t, ActivatedPart(t) + (RespectivePart(t) + Body(t)), "activated");
      FlagReads(['{'] + NamePart(t), t.blank, "activated", t.activated, RespectivePart(t) + Body(t), true);
    }
  }

  predicate NamesFlag(t: Sheet) { t.name == "fan_control_respective" || t.name == "FanControlRespective" }

  lemma RespectiveReads(t: Sheet)
    requires Writable(t)
    ensures ParseFlag(TableText(t), Quote("fan_control_respective"), true) ==
      if t.name == "fan_control_respective" then t.activated else t.respective
  {
    KeysOfTables();
    KeysApart();
    if t.name == "fan_control_respective" {
      NameFindsActivated(t, true);
    } else {
      Behind(t);
      ActivatedSkips(t, RespectivePart(t) + Body(t), "fan_control_respective");
      FlagReads((['{'] + NamePart(t)) + ActivatedPart(t), t.blank, "fan_control_respective", t.respective, Body(t),
                true);
    }
  }

  /** The other spelling of a flag is found only as the name of the table. */
  lemma OtherSpelling(t: Sheet, key: string, otherwise: bool)
    requires Writable(t) && (key == "Activated" || key == "FanControlRespective")
    ensures ParseFlag(TableText(t), Quote(key), otherwise) == if t.name == key then t.activated else otherwise
  {
    KeysOfTables();
    KeysApart();
    if t.name == key {
      NameFindsActivated(t, otherwise);
    } else {
      KeysLater(t, key);
      NoOtherKey(t, key);
      NoKeyNoFlag(TableText(t), key, otherwise);
    }
  }

  /** The header as it is read: a table named like the second flag gets the first flag's value for it. */
  lemma HeaderReads(t: Sheet, path: string, cpu: Curve, gpu: Curve)
    requires Writable(t)
    ensures TableOf(TableText(t), path, cpu, gpu) ==
      FanTable(t.name, t.activated, if NamesFlag(t) then t.activated else t.respective, cpu, gpu)
  {
    var json := TableText(t);
    NameReads(t);
    ActivatedReads(t);
    RespectiveReads(t);
    OtherSpelling(t, "Activated", ParseFlag(json, Quote("activated"), true));
    OtherSpelling(t, "FanControlRespective", ParseFlag(json, Quote("fan_control_respective"), true));
  }

  lemma CurvesRead(t: Sheet)
    requires Writable(t)
    ensures ParseCurve(TableText(t), CpuKey()) == CurveOutcome(t.cpu)
    ensures ParseCurve(TableText(t), GpuKey()) == if t.name == "gpu" then CurveOutcome(t.cpu) else CurveOutcome(t.gpu)
  {
    KeysOfTables();
    KeysApart();
    if t.name == "cpu" {
      NameFindsCpu(t);
    } else {
      CpuLoads(t);
    }
    if t.name == "gpu" {
      NameFindsCpu(t);
    } else {
      GpuLoads(t);
    }
  }

  /** What a file with these curves and this second flag loads to: first its size counts, then its curves, then the name
      and the points. */
  ghost function LoadsAs(t: Sheet, gpu: Parsed<Curve>, respective: bool): (Status, FanTable)
  {
    var cpu := CurveOutcome(t.cpu);
    if |TableText(t)| >= 4095 then (BufferTooSmall, NoFan())
    else if cpu.Bad? then (cpu.error, NoFan())
    else if gpu.Bad? then (gpu.error, NoFan())
    else
      var table := FanTable(t.name, t.activated, respective, cpu.value, gpu.value);
      (ValidationStatus(table), table)
  }

  /** Loading the sheet as it is meant. */
  ghost function AsWritten(t: Sheet): (Status, FanTable) { LoadsAs(t, CurveOutcome(t.gpu), t.respective) }

  /** The name stands in nobody's way. */
  predicate Harmless(t: Sheet)
  {
    && (t.name == "gpu" ==> CurveOutcome(t.cpu) == CurveOutcome(t.gpu))
    && (NamesFlag(t) && CurveOutcome(t.gpu).Value? ==> t.activated == t.respective)
  }

  /** A sheet that is too long, or whose CPU curve is refused, fails before its name matters. */
  predicate FailsEarly(t: Sheet) { |TableText(t)| >= 4095 || CurveOutcome(t.cpu).Bad? }

  /** A whole table, under any plain name, loads as it is written if and only if its name is harmless or it fails
      before. */
  lemma SheetLoads(t: Sheet, path: string)
    requires Writable(t)
    ensures LoadTable(Content(TableText(t)), path) == AsWritten(t) <==> FailsEarly(t) || Harmless(t)
  {
    SheetLoadsTo(t, path);
    KeysApart();
    assert t.name == "gpu" ==> !NamesFlag(t) && t.name != "";
  }

  function GpuFound(t: Sheet): Parsed<Curve> { if t.name == "gpu" then CurveOutcome(t.cpu) else CurveOutcome(t.gpu) }

  function RespectiveFound(t: Sheet): bool { if NamesFlag(t) then t.activated else t.respective }

  /** What a sheet of any plain name loads to. */
  lemma SheetLoadsTo(t: Sheet, path: string)
    requires Writable(t)
    ensures LoadTable(Content(TableText(t)), path) == LoadsAs(t, GpuFound(t), RespectiveFound(t))
  {
    CurvesRead(t);
    var cpu, gpu := CurveOutcome(t.cpu), GpuFound(t);
    if cpu.Value? && gpu.Value? {
      HeaderReads(t, path, cpu.value, gpu.value);
    }
    TableLoads(TableText(t), path, cpu, gpu);
  }

  lemma TableLoads(json: string, path: string, cpu: Parsed<Curve>, gpu: Parsed<Curve>)
    requires ParseCurve(json, CpuKey()) == cpu && ParseCurve(json, GpuKey()) == gpu
    ensures LoadTable(Content(json), path) ==
      if |json| >= 4095 then (BufferTooSmall, NoFan())
      else if cpu.Bad? then (cpu.error, NoFan())
      else if gpu.Bad? then (gpu.error, NoFan())
      else (ValidationStatus(TableOf(json, path, cpu.value, gpu.value)), TableOf(json, path, cpu.value, gpu.value))
  {
  }

  /** Loading as written accepts exactly the sheets that fit the buffer and have a name and, in each curve, one to
      sixteen points that are legal and globally monotone; each curve is then continued with its last point. */
  lemma WrittenIsAccepted(t: Sheet)
    ensures var (status, table) := AsWritten(t);
      && (status == Ok <==>
            && |TableText(t)| < 4095 && t.name != "" && 0 < |t.cpu| <= POINTS && 0 < |t.gpu| <= POINTS
            && CurveValid(PointsOf(t.cpu)) && CurveValid(PointsOf(t.gpu)))
      && (status == Ok ==>
            && 0 < |PointsOf(t.cpu)| <= POINTS && 0 < |PointsOf(t.gpu)| <= POINTS
            && table == FanTable(t.name, t.activated, t.respective, Padded(PointsOf(t.cpu)), Padded(PointsOf(t.gpu))))
  {
    PointCount(t.cpu);
    PointCount(t.gpu);
    if 0 < |t.cpu| <= POINTS && 0 < |t.gpu| <= POINTS {
      PaddingKeepsValidity(PointsOf(t.cpu));
      PaddingKeepsValidity(PointsOf(t.gpu));
    }
  }

  // ----- the failing inputs

  function OnePoint(duty: byte): seq<Spaced> { [Spaced("", FanPoint(50, 40, duty))] }

  /** One legal point in each curve, the second with twice the duty of the first. */
  function Example(name: Text32, respective: bool): Sheet
  {
    Sheet(name, true, respective, OnePoint(30), "", OnePoint(60), "", "")
  }

  lemma OnePointLoads(duty: byte)
    requires duty <= 100
    ensures CurveValid([FanPoint(50, 40, duty)]) && PointsOf(OnePoint(duty)) == [FanPoint(50, 40, duty)]
    ensures CurveOutcome(OnePoint(duty)) == Value(Padded([FanPoint(50, 40, duty)]))
  {
    assert OnePoint(duty)[1..] == [];
    assert PointsOf(OnePoint(duty)) == [FanPoint(50, 40, duty)] + PointsOf([]);
  }

  lemma CurveLength(key: string, duty: byte, rest: string)
    ensures |CurvePart("", key, OnePoint(duty), "", rest)| < |key| + 300 + |rest|
  {
    PointShape(FanPoint(50, 40, duty));
    assert OnePoint(duty)[1..] == [];
    assert |ArrayText(OnePoint(duty), "", rest, PointText)| == |PointText(FanPoint(50, 40, duty))| + 1 + |rest|;
  }

  lemma ExampleFits(name: Text32, respective: bool)
    ensures |TableText(Example(name, respective))| < 4095
  {
    var t := Example(name, respective);
    CurveLength("gpu", 60, ['}']);
    CurveLength("cpu", 30, [','] + GpuPart(t));
    assert |Header(t)| < 200;
  }

  lemma ExampleIsWritten(name: Text32, respective: bool)
    requires PlainText(name) && name != ""
    ensures var t := Example(name, respective);
      && Writable(t) && !FailsEarly(t) && CurveOutcome(t.cpu) != CurveOutcome(t.gpu) && CurveOutcome(t.gpu).Value?
      && AsWritten(t) ==
           (Ok, FanTable(name, true, respective, Padded([FanPoint(50, 40, 30)]), Padded([FanPoint(50, 40, 60)])))
  {
    var t := Example(name, respective);
    OnePointLoads(30);
    OnePointLoads(60);
    ExampleFits(name, respective);
    assert Padded([FanPoint(50, 40, 30)])[0] != Padded([FanPoint(50, 40, 60)])[0];
    WrittenIsAccepted(t);
  }

  /** A table named "gpu" loads without complaint, with its CPU curve for both. */
  lemma NamedLikeItsCurve(path: string)
    ensures var t := Example("gpu", true); var loaded := LoadTable(Content(TableText(t)), path);
      && loaded == (Ok, FanTable("gpu", true, true, Padded([FanPoint(50, 40, 30)]), Padded([FanPoint(50, 40, 30)])))
      && loaded != AsWritten(t)
  {
    var t := Example("gpu", true);
    ExampleIsWritten("gpu", true);
    OnePointLoads(30);
    KeysApart();
    SheetLoadsTo(t, path);
    PaddingKeepsValidity([FanPoint(50, 40, 30)]);
  }

  /** A table named like its second flag loads with the first flag's value for it. */
  lemma NamedLikeItsFlag(path: string)
    ensures var t := Example("FanControlRespective", false); var loaded := LoadTable(Content(TableText(t)), path);
      loaded.0 == Ok && loaded.1.respective && loaded.1 == AsWritten(t).1.(respective := true) &&
          !AsWritten(t).1.respective
  {
    var t := Example("FanControlRespective", false);
    ExampleIsWritten("FanControlRespective", false);
    OnePointLoads(30);
    OnePointLoads(60);
    KeysApart();
    SheetLoadsTo(t, path);
    PaddingKeepsValidity([FanPoint(50, 40, 30)]);
    PaddingKeepsValidity([FanPoint(50, 40, 60)]);
  }
}
