// Numbers as text: printing with %u, trimming, and reading back the way the C library's strtoul does.
module Numbers {
  import opened Types

  // ----- printing

  function Digit(n: nat): char
    requires n < 10
  {
    ['0', '1', '2', '3', '4', '5', '6', '7', '8', '9'][n]
  }

  function Decimal(n: nat): (text: string)
    ensures text != ""
  {
    if n < 10 then [Digit(n)] else Decimal(n / 10) + [Digit(n % 10)]
  }

  function Ten(digits: nat): nat
  {
    if digits == 0 then 1 else 10 * Ten(digits - 1)
  }

  /** A number below a power of ten has no more digits than that. */
  lemma {:induction false} DecimalFits(n: nat, digits: nat)
    requires digits > 0 && n < Ten(digits)
    ensures |Decimal(n)| <= digits
  {
    if n >= 10 {
      assert digits > 1;
      DecimalFits(n / 10, digits - 1);
    }
  }

  // ----- trimming

  /** `isspace` in the C locale: tab, newline, vertical tab, form feed, carriage return and space. */
  predicate IsSpace(c: char) { c == ' ' || 9 <= c as int <= 13 }

  predicate AllSpace(s: string) { forall i | 0 <= i < |s| :: IsSpace(s[i]) }

  function StripLeft(s: string): string
  {
    if s != "" && IsSpace(s[0]) then StripLeft(s[1..]) else s
  }

  function StripRight(s: string): string
  {
    if s != "" && IsSpace(s[|s| - 1]) then StripRight(s[..|s| - 1]) else s
  }

  function Strip(s: string): string { StripRight(StripLeft(s)) }

  /** Text that trimming leaves alone. */
  predicate Bare(s: string) { s != "" && !IsSpace(s[0]) && !IsSpace(s[|s| - 1]) }

  lemma {:induction false} StripLeftOf(a: string, s: string)
    requires AllSpace(a) && (s == "" || !IsSpace(s[0]))
    ensures StripLeft(a + s) == s
  {
    if a == "" {
      assert a + s == s;
    } else {
      assert (a + s)[1..] == a[1..] + s;
      StripLeftOf(a[1..], s);
    }
  }

  lemma {:induction false} StripRightOf(s: string, b: string)
    requires AllSpace(b) && (s == "" || !IsSpace(s[|s| - 1]))
    ensures StripRight(s + b) == s
  {
    if b == "" {
      assert s + b == s;
    } else {
      assert (s + b)[..|s + b| - 1] == s + b[..|b| - 1];
      StripRightOf(s, b[..|b| - 1]);
    }
  }

  /** Trimming takes off exactly the surrounding blanks. */
  lemma StripDressed(a: string, s: string, b: string)
    requires AllSpace(a) && Bare(s) && AllSpace(b)
    ensures Strip(a + s + b) == s
  {
    assert a + s + b == a + (s + b);
    StripLeftOf(a, s + b);
    StripRightOf(s, b);
  }

  lemma StripLeftStep(text: string, i: nat)
    requires i < |text| && IsSpace(text[i])
    ensures StripLeft(text[i..]) == StripLeft(text[i + 1..])
  {
    assert text[i..][1..] == text[i + 1..];
  }

  lemma StripRightStep(text: string, i: nat, j: nat)
    requires i < j <= |text| && IsSpace(text[j - 1])
    ensures StripRight(text[i..j]) == StripRight(text[i..j - 1])
  {
    var kept := text[i..j];
    assert kept[..|kept| - 1] == text[i..j - 1];
  }

  lemma StripRightDone(text: string, i: nat, j: nat)
    requires i < j <= |text| && !IsSpace(text[j - 1])
    ensures StripRight(text[i..j]) == text[i..j]
  {
  }

  /** `trim`: the start moves right, the end moves left. */
  method Trim(text: string) returns (trimmed: string)
    ensures trimmed == Strip(text)
  {
    var start := 0;
    assert text[0..] == text;
    while start < |text| && IsSpace(text[start])
      invariant 0 <= start <= |text|
      invariant StripLeft(text[start..]) == StripLeft(text)
    {
      StripLeftStep(text, start);
      start := start + 1;
    }
    if start == |text| {
      return "";
    }
    var end := |text|;
    assert text[start..end] == text[start..] == StripLeft(text);
    while end - 1 > start && IsSpace(text[end - 1])
      invariant start < end <= |text|
      invariant StripRight(text[start..end]) == Strip(text)
    {
      StripRightStep(text, start, end);
      end := end - 1;
    }
    StripRightDone(text, start, end);
    trimmed := text[start..end];
  }

  // ----- strtoul

  const ULONG_MAX: nat := 0xFFFF_FFFF_FFFF_FFFF

  /** The value of a digit, or 36 for anything else. */
  function DigitValue(c: char): nat
  {
    if '0' <= c <= '9' then c as int - '0' as int
    else if 'a' <= c <= 'z' then c as int - 'a' as int + 10
    else if 'A' <= c <= 'Z' then c as int - 'A' as int + 10
    else 36
  }

  function DigitsEnd(text: string, from: nat, base: nat): (end: nat)
    requires from <= |text|
    ensures from <= end <= |text|
    ensures forall i | from <= i < end :: DigitValue(text[i]) < base
    ensures end < |text| ==> DigitValue(text[end]) >= base
    decreases |text| - from
  {
    if from < |text| && DigitValue(text[from]) < base then DigitsEnd(text, from + 1, base) else from
  }

  function DigitsValue(digits: string, base: nat): nat
  {
    if digits == "" then 0 else DigitsValue(digits[..|digits| - 1], base) * base + DigitValue(digits[|digits| - 1])
  }

  function SpaceEnd(text: string, from: nat): (end: nat)
    requires from <= |text|
    ensures from <= end <= |text|
    decreases |text| - from
  {
    if from < |text| && IsSpace(text[from]) then SpaceEnd(text, from + 1) else from
  }

  /** The converted value and where conversion stopped; None when there was no digit. */
  datatype Converted = Nothing | Converted(value: nat, end: nat)

  predicate HexPrefix(text: string, at: nat)
  {
    at + 2 < |text| && text[at] == '0' && (text[at + 1] == 'x' || text[at + 1] == 'X') && DigitValue(text[at + 2]) < 16
  }

  /** Base 0 reads a hexadecimal, octal or decimal constant; a value beyond 64 bits sticks at the largest, and a minus
      sign negates modulo 2^64. */
  function StrToUL(text: string, base: nat): Converted
  {
    var sign := SpaceEnd(text, 0);
    var at := if sign < |text| && (text[sign] == '-' || text[sign] == '+') then sign + 1 else sign;
    var hex := base == 0 && HexPrefix(text, at);
    var radix := if base != 0 then base else if hex then 16 else if at < |text| && text[at] == '0' then 8 else 10;
    var start := if hex then at + 2 else at;
    var end := DigitsEnd(text, start, radix);
    if end == start then Nothing
    else
      var value := DigitsValue(text[start..end], radix);
      Converted(if value > ULONG_MAX then ULONG_MAX
                else if text[sign] == '-' && value > 0 then ULONG_MAX + 1 - value
                else value, end)
  }

  datatype Parsed<T> = Value(value: T) | Bad(error: Failure)

  /** `parse_u8_text` */
  function ParseU8(text: string): Parsed<byte>
  {
    match StrToUL(text, 0)
    case Nothing => Bad(ParseError)
    case Converted(value, end) =>
      if end != |text| then Bad(ParseError) else if value > 0xFF then Bad(RangeError) else Value(value)
  }

  // ----- reading inverts printing

  predicate IsDigit(c: char) { '0' <= c <= '9' }

  lemma {:induction false} DecimalDigits(n: nat)
    ensures forall i | 0 <= i < |Decimal(n)| :: IsDigit(Decimal(n)[i])
    ensures Decimal(n)[0] == '0' <==> n == 0
    ensures DigitsValue(Decimal(n), 10) == n
  {
    if n >= 10 {
      DecimalDigits(n / 10);
      assert Decimal(n)[..|Decimal(n)| - 1] == Decimal(n / 10);
    } else {
      assert DigitsValue("", 10) == 0;
      assert Decimal(n)[..0] == "";
    }
  }

  lemma {:induction false} DigitsEndAt(text: string, from: nat, base: nat, end: nat)
    requires from <= end <= |text| && (end < |text| ==> DigitValue(text[end]) >= base)
    requires forall i | from <= i < end :: DigitValue(text[i]) < base
    ensures DigitsEnd(text, from, base) == end
    decreases end - from
  {
    if from < end {
      DigitsEndAt(text, from + 1, base, end);
    }
  }

  lemma DecimalSpan(n: nat, rest: string, base: nat)
    requires (rest == "" || DigitValue(rest[0]) >= base) && base >= 10
    ensures DigitsEnd(Decimal(n) + rest, 0, base) == |Decimal(n)| && (Decimal(n) + rest)[0..|Decimal(n)|] == Decimal(n)
  {
    var d := Decimal(n);
    var text := d + rest;
    DecimalDigits(n);
    forall i | 0 <= i < |d|
      ensures DigitValue(text[i]) < base
    {
      assert IsDigit(d[i]);
    }
    DigitsEndAt(text, 0, base, |d|);
  }

  lemma DecimalStart(n: nat)
    ensures IsDigit(Decimal(n)[0]) && !IsSpace(Decimal(n)[0])
  {
    DecimalDigits(n);
  }

  lemma NotADigit(c: char)
    requires !IsDigit(c)
    ensures DigitValue(c) >= 10
  {
  }

  /** Conversion in base ten of text that starts with a digit. */
  lemma ConvertsFromDigit(text: string, base: nat, end: nat)
    requires text != "" && IsDigit(text[0]) && 0 < end <= |text|
    requires base == 10 || (base == 0 && text[0] != '0')
    requires DigitsEnd(text, 0, 10) == end && DigitsValue(text[0..end], 10) <= ULONG_MAX
    ensures StrToUL(text, base) == Converted(DigitsValue(text[0..end], 10), end)
  {
    assert SpaceEnd(text, 0) == 0;
  }

  /** A printed number is read back from the front of a text, up to the first character that is no digit. */
  lemma ReadsDecimal(n: nat, rest: string)
    requires n <= ULONG_MAX && (rest == "" || !IsDigit(rest[0]))
    ensures StrToUL(Decimal(n) + rest, 10) == Converted(n, |Decimal(n)|)
  {
    if rest != "" {
      NotADigit(rest[0]);
    }
    DecimalSpan(n, rest, 10);
    DecimalStart(n);
    DecimalDigits(n);
    assert (Decimal(n) + rest)[0] == Decimal(n)[0];
    ConvertsFromDigit(Decimal(n) + rest, 10, |Decimal(n)|);
  }

  /** A lone zero is an octal constant, but still zero. */
  lemma ParsesZero()
    ensures ParseU8(['0']) == Value(0)
  {
    var d := ['0'];
    assert SpaceEnd(d, 0) == 0;
    DigitsEndAt(d, 0, 8, 1);
    ZeroValue(d);
  }

  lemma ZeroValue(d: string)
    requires d == ['0']
    ensures d[0..1] == d && DigitsValue(d, 8) == 0
  {
    assert d[..0] == "";
    assert DigitsValue("", 8) == 0;
  }

  lemma ParsesDecimal(n: byte)
    ensures ParseU8(Decimal(n)) == Value(n)
  {
    if n == 0 {
      assert Decimal(0) == ['0'];
      ParsesZero();
    } else {
      var d := Decimal(n);
      assert d + "" == d;
      DecimalSpan(n, "", 10);
      DecimalStart(n);
      DecimalDigits(n);
      ConvertsFromDigit(d, 0, |d|);
    }
  }
}
