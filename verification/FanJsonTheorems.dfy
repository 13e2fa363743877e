// A JSON curve loads as its points continued with the last one, and is accepted exactly when the given points are.
module FanJsonTheorems {
  import opened Types
  import opened CText
  import opened Keys
  import opened JsonText
  import opened Numbers
  import opened Scanner
  import opened FanTables
  import opened Loader
  import opened FanJson

  // ----- padding

  /** Continuing a curve with its last point changes nothing about its validity. */
  lemma PaddingKeepsValidity(c: seq<FanPoint>)
    requires 0 < |c| <= POINTS
    ensures CurveValid(Padded(c)) <==> CurveValid(c)
    ensures forall i | 0 <= i < POINTS :: Padded(c)[i] == if i < |c| then c[i] else c[|c| - 1]
  {
    var d := Padded(c);
    if CurveValid(d) {
      assert forall i | 0 <= i < |c| :: c[i] == d[i];
    }
    if CurveValid(c) {
      forall i, j | 0 <= i <= j < |d|
        ensures PointBelow(d[i], d[j])
      {
        var i', j' := if i < |c| then i else |c| - 1, if j < |c| then j else |c| - 1;
        assert PointBelow(c[i'], c[j']);
      }
    }
  }

  // ----- one object

  function NumberText(key: string, n: byte, more: string): string
  {
    Quote(key) + ([':'] + (Decimal(n) + more))
  }

  function PointText(p: FanPoint): string
  {
    ['{'] + NumberText("up", p.up, [','] + NumberText("down", p.down, [','] + NumberText("duty", p.duty, ['}'])))
  }

  lemma DigitsUnquoted(n: nat)
    ensures forall i | 0 <= i < |Decimal(n)| ::
      Decimal(n)[i] != '"' && !JsonBlank(Decimal(n)[i]) && Decimal(n)[i] != '}'
  {
    DecimalDigits(n);
  }

  lemma AfterColon(before: string, key: string, tail: string)
    ensures var text := before + (Quote(key) + ([':'] + tail)); var at := |before| + |key| + 3;
      at <= |text| && text[at..] == tail && (tail != "" ==> at < |text| && text[at] == tail[0])
  {
    var q := Quote(key);
    var text := before + (q + ([':'] + tail));
    assert text == (before + q + [':']) + tail;
  }

  lemma ValueFollows(before: string, key: string, tail: string)
    requires Word(key) && Clear(before + (Quote(key) + ([':'] + tail)), Quote(key), |before|)
    requires tail != "" && !JsonBlank(tail[0])
    ensures ValueAfter(before + (Quote(key) + ([':'] + tail)), Quote(key)) == Some(|before| + |key| + 3)
  {
    AfterColon(before, key, tail);
    ColonAfterKey(before, key, tail);
  }

  lemma TailReads(before: string, key: string, tail: string, n: byte)
    requires Word(key) && Clear(before + (Quote(key) + ([':'] + tail)), Quote(key), |before|)
    requires tail != "" && !JsonBlank(tail[0]) && StrToUL(tail, 10).Converted? && StrToUL(tail, 10).value == n
    ensures ObjectNumber(before + (Quote(key) + ([':'] + tail)), Quote(key)) == Some(n)
  {
    ValueFollows(before, key, tail);
    AfterColon(before, key, tail);
    NumberAt(before + (Quote(key) + ([':'] + tail)), Quote(key), |before| + |key| + 3, tail, n);
  }

  lemma TailConverts(n: byte, more: string)
    requires more != "" && !IsDigit(more[0])
    ensures var tail := Decimal(n) + more;
      tail != "" && !JsonBlank(tail[0]) && StrToUL(tail, 10).Converted? && StrToUL(tail, 10).value == n
  {
    DigitsUnquoted(n);
    assert (Decimal(n) + more)[0] == Decimal(n)[0];
    ReadsDecimal(n, more);
  }

  /** The number after a key that occurs nowhere before. */
  lemma NumberReads(before: string, key: string, n: byte, more: string)
    requires Word(key) && Clear(before + NumberText(key, n, more), Quote(key), |before|)
    requires more != "" && !IsDigit(more[0])
    ensures ObjectNumber(before + NumberText(key, n, more), Quote(key)) == Some(n)
  {
    TailConverts(n, more);
    TailReads(before, key, Decimal(n) + more, n);
  }

  lemma NumberAt(text: string, key: string, at: nat, tail: string, n: byte)
    requires ValueAfter(text, key) == Some(at) && at <= |text| && text[at..] == tail
    requires StrToUL(tail, 10).Converted? && StrToUL(tail, 10).value == n
    ensures ObjectNumber(text, key) == Some(n)
  {
  }

  /** Another key and its number hold no match. */
  lemma NumberClear(key: string, n: byte, more: string, other: string)
    requires Word(key) && Name(other) && key != other
    ensures Clear(NumberText(key, n, more), Quote(other), |Quote(key)| + 1 + |Decimal(n)|)
  {
    var tail := [':'] + (Decimal(n) + more);
    assert tail == ([':'] + Decimal(n)) + more;
    DigitsUnquoted(n);
    UnquotedClear([':'] + Decimal(n), more, other);
    QuotedClear(key, tail, other);
    ClearJoins(Quote(key), tail, Quote(other), 1 + |Decimal(n)|);
  }

  function Step(key: string, n: byte): string { Quote(key) + [':'] + Decimal(n) + [','] }

  lemma StepClear(before: string, key: string, n: byte, more: string, other: string)
    requires Word(key) && Word(other) && key != other
    requires Clear(before + NumberText(key, n, [','] + more), Quote(other), |before|)
    ensures Clear(before + NumberText(key, n, [','] + more), Quote(other), |before + Step(key, n)|)
    ensures before + NumberText(key, n, [','] + more) == (before + Step(key, n)) + more
  {
    var text := NumberText(key, n, [','] + more);
    var front := Quote(key) + [':'] + Decimal(n);
    NumberClear(key, n, [','] + more, other);
    assert text == front + ([','] + more);
    UnquotedClear([','], more, other);
    ClearJoins(front, [','] + more, Quote(other), 1);
    ClearJoins(before, text, Quote(other), |front| + 1);
    assert before + text == (before + Step(key, n)) + more;
  }

  lemma Words()
    ensures Word("up") && Word("down") && Word("duty") && "up" != "down" && "up" != "duty" && "down" != "duty"
  {
    assert |"up"| == 2 && |"down"| == 4 && "down"[1] == 'o' && "duty"[1] == 'u';
  }

  lemma PointReads(p: FanPoint)
    ensures ObjectPoint(PointText(p)) == Some(p)
  {
    Words();
    var rest3 := NumberText("duty", p.duty, ['}']);
    var rest2 := NumberText("down", p.down, [','] + rest3);
    var rest1 := NumberText("up", p.up, [','] + rest2);
    ThreeNumbers("up", p.up, "down", p.down, "duty", p.duty);
  }

  /** Each of three numbers is read under its own name. */
  lemma ThreeNumbers(k1: string, n1: byte, k2: string, n2: byte, k3: string, n3: byte)
    requires Word(k1) && Word(k2) && Word(k3) && k1 != k2 && k1 != k3 && k2 != k3
    ensures var text := ['{'] + NumberText(k1, n1, [','] + NumberText(k2, n2, [','] + NumberText(k3, n3, ['}'])));
      && ObjectNumber(text, Quote(k1)) == Some(n1)
      && ObjectNumber(text, Quote(k2)) == Some(n2)
      && ObjectNumber(text, Quote(k3)) == Some(n3)
  {
    var rest3 := NumberText(k3, n3, ['}']);
    var rest2 := NumberText(k2, n2, [','] + rest3);
    var rest1 := NumberText(k1, n1, [','] + rest2);
    UnquotedClear(['{'], rest1, k1);
    NumberReads(['{'], k1, n1, [','] + rest2);
    UnquotedClear(['{'], rest1, k2);
    StepClear(['{'], k1, n1, rest2, k2);
    NumberReads(['{'] + Step(k1, n1), k2, n2, [','] + rest3);
    UnquotedClear(['{'], rest1, k3);
    StepClear(['{'], k1, n1, rest2, k3);
    StepClear(['{'] + Step(k1, n1), k2, n2, rest3, k3);
    NumberReads(['{'] + Step(k1, n1) + Step(k2, n2), k3, n3, ['}']);
  }

  // ----- the array

  /** A point and what separates it from the one before. */
  datatype Spaced = Spaced(gap: string, point: FanPoint)

  predicate Gap(s: string) { forall i | 0 <= i < |s| :: s[i] != '{' && s[i] != ']' }

  predicate Gaps(ps: seq<Spaced>) { forall p | p in ps :: Gap(p.gap) }

  /** How a point is printed. */
  type Printer = FanPoint -> string

  /** The inside of an array and what follows it. */
  function ArrayText(ps: seq<Spaced>, last: string, rest: string, print_: Printer): string
  {
    if ps == [] then last + ([']'] + rest)
    else ps[0].gap + (print_(ps[0].point) + ArrayText(ps[1..], last, rest, print_))
  }

  function PointsOf(ps: seq<Spaced>): seq<FanPoint>
  {
    if ps == [] then [] else [ps[0].point] + PointsOf(ps[1..])
  }

  lemma {:induction false} MarkAt(json: string, at: nat, mark: nat)
    requires at <= mark < |json| && (json[mark] == '{' || json[mark] == ']')
    requires forall q: nat | at <= q < mark :: json[q] != '{' && json[q] != ']'
    ensures NextMark(json, at) == mark
    decreases mark - at
  {
    if at < mark {
      MarkAt(json, at + 1, mark);
    }
  }

  lemma MarkAfterGap(before: string, gap: string, more: string)
    requires Gap(gap) && more != "" && (more[0] == '{' || more[0] == ']')
    ensures NextMark(before + (gap + more), |before|) == |before| + |gap|
  {
    var json := before + (gap + more);
    assert forall q: nat | |before| <= q < |before| + |gap| :: json[q] == gap[q - |before|];
    assert json[|before| + |gap|] == more[0];
    MarkAt(json, |before|, |before| + |gap|);
  }

  /** The only closing brace of a printed point is its last character. */
  lemma PointShape(p: FanPoint)
    ensures var t := PointText(p);
      0 < |t| < OBJECT_MAX && t[0] == '{' && t[|t| - 1] == '}' && forall i | 0 <= i < |t| - 1 :: t[i] != '}'
  {
    var front := ['{'] + Step("up", p.up) + Step("down", p.down) + (Quote("duty") + [':'] + Decimal(p.duty));
    Words();
    DigitsUnquoted(p.up);
    DigitsUnquoted(p.down);
    DigitsUnquoted(p.duty);
    StepShape("up", p.up);
    StepShape("down", p.down);
    StepShape("duty", p.duty);
    assert PointText(p) == front + ['}'] by {
      StepsSpell(p);
    }
    assert forall i | 0 <= i < |front| :: front[i] != '}';
  }

  lemma StepShape(key: string, n: byte)
    requires Word(key) && |key| <= 4
    ensures var t := Quote(key) + [':'] + Decimal(n); |t| <= 10 && forall i | 0 <= i < |t| :: t[i] != '}'
    ensures |Step(key, n)| <= 11 && forall i | 0 <= i < |Step(key, n)| :: Step(key, n)[i] != '}'
  {
    DigitsUnquoted(n);
    assert Ten(3) == 1000;
    DecimalFits(n, 3);
  }

  lemma StepsSpell(p: FanPoint)
    ensures PointText(p)
      == ['{'] + Step("up", p.up) + Step("down", p.down) + (Quote("duty") + [':'] + Decimal(p.duty)) + ['}']
  {
    SpellThree("up", p.up, "down", p.down, "duty", p.duty);
  }

  lemma SpellOne(key: string, n: byte, more: string)
    ensures NumberText(key, n, [','] + more) == Step(key, n) + more
    ensures NumberText(key, n, more) == (Quote(key) + [':'] + Decimal(n)) + more
  {
    var q, d := Quote(key), Decimal(n);
    assert q + ([':'] + (d + more)) == (q + [':'] + d) + more;
    assert q + ([':'] + (d + ([','] + more))) == (q + [':'] + d + [',']) + more;
  }

  lemma SpellThree(k1: string, n1: byte, k2: string, n2: byte, k3: string, n3: byte)
    ensures ['{'] + NumberText(k1, n1, [','] + NumberText(k2, n2, [','] + NumberText(k3, n3, ['}'])))
      == ['{'] + Step(k1, n1) + Step(k2, n2) + (Quote(k3) + [':'] + Decimal(n3)) + ['}']
  {
    var t3 := NumberText(k3, n3, ['}']);
    SpellOne(k3, n3, ['}']);
    SpellOne(k2, n2, t3);
    SpellOne(k1, n1, NumberText(k2, n2, [','] + t3));
    Regroup(['{'], Step(k1, n1), Step(k2, n2), Quote(k3) + [':'] + Decimal(n3), ['}']);
  }

  lemma Regroup(a: string, b: string, c: string, d: string, e: string)
    ensures a + (b + (c + (d + e))) == a + b + c + d + e
  {
  }

  /** One object of the array, as a text between its first and last brace. */
  predicate Braced(t: string)
  {
    0 < |t| < OBJECT_MAX && t[0] == '{' && t[|t| - 1] == '}' && forall i | 0 <= i < |t| - 1 :: t[i] != '}'
  }

  lemma CloseOfObject(before: string, t: string, more: string)
    requires Braced(t)
    ensures var json := before + (t + more); var close := |before| + |t| - 1;
      close < |json| && FindChar(json, '}', |before|) == close && json[|before|..close + 1] == t
  {
    var json, close := before + (t + more), |before| + |t| - 1;
    MiddleOf(before, t, more);
    forall q: nat | |before| <= q < close
      ensures json[q] != '}'
    {
      assert json[q] == t[q - |before|];
    }
    assert json[close] == t[|t| - 1];
    FindCharFirst(json, '}', |before|, close);
  }

  ghost predicate LoadsTo(json: string, at: nat, got: seq<FanPoint>, read: Reader, result: Parsed<seq<FanPoint>>)
  {
    at <= |json| && |got| <= POINTS && Points(json, at, got, read) == result
  }

  /** An object is one step of the loop: the rest decides, unless sixteen points were already read. */
  lemma PointsStep(json: string, at: nat, mark: nat, close: nat, p: FanPoint, got: seq<FanPoint>, read: Reader,
                   result: Parsed<seq<FanPoint>>)
    requires at <= mark <= close < |json| && |got| <= POINTS
    requires NextMark(json, at) == mark && json[mark] == '{' && FindChar(json, '}', mark) == close
    requires close - mark + 1 < OBJECT_MAX && read(json[mark..close + 1]) == Some(p)
    requires if |got| == POINTS then result == Bad(RangeError) else LoadsTo(json, close + 1, got + [p], read, result)
    ensures LoadsTo(json, at, got, read, result)
  {
  }

  /** Where the next object of the array is. */
  lemma ObjectHere(before: string, gap: string, t: string, more: string)
    requires Gap(gap) && Braced(t)
    ensures var json := before + (gap + (t + more)); var mark := |before| + |gap|; var close := mark + |t| - 1;
      && close < |json| && json[mark] == '{' && NextMark(json, |before|) == mark && FindChar(json, '}', mark) == close
      && json[mark..close + 1] == t && json == before + gap + t + more
  {
    var json, mark := before + (gap + (t + more)), |before| + |gap|;
    assert (t + more)[0] == '{';
    MarkAfterGap(before, gap, t + more);
    CloseOfObject(before + gap, t, more);
    assert json == (before + gap) + (t + more);
    assert json == before + gap + t + more;
    assert json[mark] == t[0];
  }

  /** The same step, with the place of the object known. */
  lemma ReadOne(json: string, at: nat, mark: nat, t: string, p: FanPoint, got: seq<FanPoint>, read: Reader, next: nat,
                result: Parsed<seq<FanPoint>>)
    requires at <= mark < next <= |json| && json[mark..next] == t && read(t) == Some(p) && |t| < OBJECT_MAX
    requires NextMark(json, at) == mark && json[mark] == '{' && FindChar(json, '}', mark) == next - 1
    requires |got| <= POINTS
    requires if |got| == POINTS then result == Bad(RangeError) else LoadsTo(json, next, got + [p], read, result)
    ensures LoadsTo(json, at, got, read, result)
  {
    PointsStep(json, at, mark, next - 1, p, got, read, result);
  }

  lemma ReadEnd(before: string, last: string, rest: string, got: seq<FanPoint>, read: Reader)
    requires Gap(last) && |got| <= POINTS
    ensures LoadsTo(before + (last + ([']'] + rest)), |before|, got, read, Value(got))
  {
    var json := before + (last + ([']'] + rest));
    MarkAfterGap(before, last, [']'] + rest);
    assert json[|before| + |last|] == ']';
  }

  /** The reader inverts the printer, whose texts are objects without objects inside. */
  ghost predicate Inverts(read: Reader, print_: Printer)
  {
    forall p: FanPoint :: Braced(print_(p)) && read(print_(p)) == Some(p)
  }

  lemma GapsApart(ps: seq<Spaced>)
    requires Gaps(ps) && ps != []
    ensures Gap(ps[0].gap) && Gaps(ps[1..])
  {
    assert ps[0] in ps;
  }

  /** The outcome of reading more points after `got`. */
  function Outcome(got: seq<FanPoint>, more: seq<FanPoint>): Parsed<seq<FanPoint>>
  {
    if |got| + |more| <= POINTS then Value(got + more) else Bad(RangeError)
  }

  lemma OutcomeMoves(got: seq<FanPoint>, p: FanPoint, more: seq<FanPoint>)
    ensures Outcome(got, [p] + more) == Outcome(got + [p], more)
  {
    assert got + ([p] + more) == got + [p] + more;
  }

  lemma ReadHead(before: string, gap: string, t: string, p: FanPoint, more: string, got: seq<FanPoint>, read: Reader,
                 result: Parsed<seq<FanPoint>>)
    requires Gap(gap) && Braced(t) && read(t) == Some(p) && |got| <= POINTS
    requires var next := before + gap + t;
      if |got| == POINTS then result == Bad(RangeError) else LoadsTo(next + more, |next|, got + [p], read, result)
    ensures LoadsTo(before + (gap + (t + more)), |before|, got, read, result)
  {
    ObjectHere(before, gap, t, more);
    var json, next := before + (gap + (t + more)), |before + gap + t|;
    assert |got| < POINTS ==> LoadsTo(json, next, got + [p], read, result);
    ReadOne(json, |before|, |before| + |gap|, t, p, got, read, next, result);
  }

  lemma {:induction false} ReadAll(before: string, ps: seq<Spaced>, last: string, rest: string, got: seq<FanPoint>,
                                   read: Reader, print_: Printer)
    requires Gaps(ps) && Gap(last) && Inverts(read, print_) && |got| <= POINTS
    ensures LoadsTo(before + ArrayText(ps, last, rest, print_), |before|, got, read, Outcome(got, PointsOf(ps)))
    decreases |ps|
  {
    if ps == [] {
      ReadEnd(before, last, rest, got, read);
      assert got + [] == got;
    } else {
      GapsApart(ps);
      var p, tail := ps[0].point, ps[1..];
      OutcomeMoves(got, p, PointsOf(tail));
      if |got| < POINTS {
        ReadAll(before + ps[0].gap + print_(p), tail, last, rest, got + [p], read, print_);
      }
      ReadHead(before, ps[0].gap, print_(p), p, ArrayText(tail, last, rest, print_), got, read,
               Outcome(got, PointsOf(ps)));
    }
  }

  lemma {:induction false} PointCount(ps: seq<Spaced>)
    ensures |PointsOf(ps)| == |ps|
  {
    if ps != [] {
      PointCount(ps[1..]);
    }
  }

  /** The text around one named array: the key does not occur before, and no bracket comes between it and its own. */
  function CurveText(head: string, key: string, between: string, ps: seq<Spaced>, last: string, rest: string,
                     print_: Printer): string
  {
    head + (Quote(key) + (between + (['['] + ArrayText(ps, last, rest, print_))))
  }

  lemma ArrayFound(head: string, key: string, between: string, inside: string)
    requires Word(key) && Clear(head + (Quote(key) + (between + (['['] + inside))), Quote(key), |head|)
    requires forall i | 0 <= i < |between| :: between[i] != '['
    ensures var json := head + (Quote(key) + (between + (['['] + inside)));
      var at := |head| + |key| + |between| + 3;
      ArrayAfter(json, Quote(key)) == Some(at) && at <= |json| && json == json[..at] + inside
  {
    var front := Quote(key) + between;
    var json := head + (Quote(key) + (between + (['['] + inside)));
    assert json == head + (front + (['['] + inside));
    assert json == (head + front + ['[']) + inside;
    KeyFound(head, key, between + (['['] + inside));
    assert forall q: nat | q < |front| :: front[q] != '[' by {
      forall q: nat | q < |Quote(key)|
        ensures Quote(key)[q] != '['
      {
        NoBracketIn(key, q);
      }
    }
    FindCharAfter(head, front, '[', inside);
  }

  lemma NoBracketIn(key: string, q: nat)
    requires Word(key) && q < |key| + 2
    ensures Quote(key)[q] != '['
  {
    if 0 < q <= |key| {
      assert Quote(key)[q] == key[q - 1];
    }
  }

  lemma CurveAt(json: string, key: string, at: nat, points: seq<FanPoint>, read: Reader)
    requires ArrayAfter(json, key) == Some(at) && LoadsTo(json, at, [], read, Outcome([], points))
    ensures CurveUnder(json, key, read) ==
      if points == [] then Bad(ParseError) else if |points| <= POINTS then Value(Padded(points)) else Bad(RangeError)
  {
    assert [] + points == points;
  }

  lemma InsideLoads(json: string, key: string, at: nat, ps: seq<Spaced>, last: string, rest: string, read: Reader,
                    print_: Printer)
    requires Gaps(ps) && Gap(last) && Inverts(read, print_)
    requires ArrayAfter(json, key) == Some(at) && at <= |json| && json == json[..at] + ArrayText(ps, last, rest, print_)
    ensures CurveUnder(json, key, read) ==
      if PointsOf(ps) == [] then Bad(ParseError) else if |PointsOf(ps)| <= POINTS then Value(Padded(PointsOf(ps)))
          else Bad(RangeError)
  {
    ReadAll(json[..at], ps, last, rest, [], read, print_);
    assert |json[..at]| == at;
    CurveAt(json, key, at, PointsOf(ps), read);
  }

  lemma ArrayLoads(head: string, key: string, between: string, ps: seq<Spaced>, last: string, rest: string,
                   read: Reader, print_: Printer)
    requires Word(key) && Gaps(ps) && Gap(last) && Inverts(read, print_) &&
      forall i | 0 <= i < |between| :: between[i] != '['
    requires Clear(CurveText(head, key, between, ps, last, rest, print_), Quote(key), |head|)
    ensures CurveUnder(CurveText(head, key, between, ps, last, rest, print_), Quote(key), read) ==
      if PointsOf(ps) == [] then Bad(ParseError) else if |PointsOf(ps)| <= POINTS then Value(Padded(PointsOf(ps)))
          else Bad(RangeError)
  {
    ArrayFound(head, key, between, ArrayText(ps, last, rest, print_));
    InsideLoads(CurveText(head, key, between, ps, last, rest, print_), Quote(key), |head| + |key| + |between| + 3,
                ps, last, rest, read, print_);
  }

  lemma EveryPointReads()
    ensures Inverts(ObjectPoint, PointText)
  {
    forall p: FanPoint
      ensures Braced(PointText(p)) && ObjectPoint(PointText(p)) == Some(p)
    {
      PointReads(p);
      PointShape(p);
    }
  }

  /** A printed curve of one to sixteen points loads as those points continued with the last; an empty one and a longer
      one are refused. */
  lemma CurveLoads(head: string, key: string, between: string, ps: seq<Spaced>, last: string, rest: string)
    requires Word(key) && Gaps(ps) && Gap(last) && forall i | 0 <= i < |between| :: between[i] != '['
    requires Clear(CurveText(head, key, between, ps, last, rest, PointText), Quote(key), |head|)
    ensures |PointsOf(ps)| == |ps|
    ensures ParseCurve(CurveText(head, key, between, ps, last, rest, PointText), Quote(key)) ==
      if ps == [] then Bad(ParseError) else if |ps| <= POINTS then Value(Padded(PointsOf(ps))) else Bad(RangeError)
  {
    EveryPointReads();
    PointCount(ps);
    ArrayLoads(head, key, between, ps, last, rest, ObjectPoint, PointText);
  }
}
