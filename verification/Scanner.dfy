// The CLI's value scanner (extract_json_value and trim_quotes of src/cli/cmd-state.c).
module Scanner {
  import opened Types
  import opened CText
  import opened Keys
  import opened JsonText

  /** None when the call failed and left the buffer alone. */
  datatype Extracted = Extracted(status: Status, text: Option<string>)

  predicate Blank(c: char) { c == ' ' || c == '\n' || c == '\t' }

  function SkipBlanks(json: string, at: nat): (i: nat)
    requires at <= |json|
    ensures at <= i <= |json|
    decreases |json| - at
  {
    if at < |json| && Blank(json[at]) then SkipBlanks(json, at + 1) else at
  }

  function ScalarEnd(json: string, at: nat): (i: nat)
    requires at <= |json|
    ensures at <= i <= |json|
    decreases |json| - at
  {
    if at == |json| || json[at] == ',' || json[at] == '}' then at else ScalarEnd(json, at + 1)
  }

  lemma {:induction false} CloseWithin(text: string, depth: nat)
    ensures Close(text, depth).Some? ==> Close(text, depth).value <= |text|
    decreases |text|
  {
    if depth > 0 && text != "" {
      CloseWithin(text[1..], if text[0] == '{' then depth + 1 else if text[0] == '}' then depth - 1 else depth);
    }
  }

  /** The end of the value that starts at `at`: a quoted string up to the next quote, an object up to its closing brace,
      anything else up to a comma or closing brace. */
  function ValueEnd(json: string, at: nat): (end: Option<nat>)
    requires at <= |json|
    ensures end.Some? ==> at <= end.value <= |json|
  {
    if at < |json| && json[at] == '"' then
      var close := FindChar(json, '"', at + 1);
      if close == |json| then None else Some(close + 1)
    else if at < |json| && json[at] == '{' then
      CloseWithin(json[at + 1..], 1);
      Past(at + 1, Close(json[at + 1..], 1))
    else Some(ScalarEnd(json, at))
  }

  /** Where the value after the anchor starts, or why there is none. */
  datatype Start = Nowhere(error: Failure) | At(index: nat)

  function ValueStart(json: string, anchor: string): (s: Start)
    ensures s.At? ==> s.index <= |json|
  {
    var at := Find(json, anchor, 0);
    if !MatchesAt(json, anchor, at) then Nowhere(NotFound)
    else
      var colon := FindChar(json, ':', at);
      if colon == |json| then Nowhere(ParseError) else At(SkipBlanks(json, colon + 1))
  }

  function Extract(json: string, anchor: string, capacity: nat): Extracted
  {
    if capacity == 0 then Extracted(InvalidArgument, None)
    else match ValueStart(json, anchor)
      case Nowhere(error) => Extracted(error, None)
      case At(at) =>
        match ValueEnd(json, at)
        case None => Extracted(ParseError, None)
        case Some(end) =>
          if end - at + 1 > capacity then Extracted(BufferTooSmall, None) else Extracted(Ok, Some(json[at..end]))
  }

  // ----- the loops

  lemma CloseStep(text: string, depth: nat)
    requires depth > 0 && text != ""
    ensures Close(text, depth) ==
      Past(1, Close(text[1..], if text[0] == '{' then depth + 1 else if text[0] == '}' then depth - 1 else depth))
  {
  }

  /** The brace counter. */
  method CloseBraces(json: string, start: nat) returns (end: Option<nat>)
    requires start <= |json|
    ensures end == Past(start, Close(json[start..], 1))
  {
    var depth: nat := 1;
    var cursor := start;
    while cursor < |json| && depth > 0
      invariant start <= cursor <= |json|
      invariant Past(cursor, Close(json[cursor..], depth)) == Past(start, Close(json[start..], 1))
    {
      CloseStep(json[cursor..], depth);
      assert json[cursor..][1..] == json[cursor + 1..];
      if json[cursor] == '{' {
        depth := depth + 1;
      } else if json[cursor] == '}' {
        depth := depth - 1;
      }
      cursor := cursor + 1;
    }
    end := if depth != 0 then None else Some(cursor);
  }

  /** The three ways a value ends. */
  method FindValueEnd(json: string, value: nat) returns (end: Option<nat>)
    requires value <= |json|
    ensures end == ValueEnd(json, value)
  {
    if value < |json| && json[value] == '"' {
      var close := FindChar(json, '"', value + 1);
      return if close == |json| then None else Some(close + 1);
    }
    if value < |json| && json[value] == '{' {
      end := CloseBraces(json, value + 1);
      return;
    }
    var cursor := value;
    while cursor < |json| && json[cursor] != ',' && json[cursor] != '}'
      invariant value <= cursor <= |json|
      invariant ScalarEnd(json, cursor) == ScalarEnd(json, value)
    {
      cursor := cursor + 1;
    }
    end := Some(cursor);
  }

  /** `extract_json_value` */
  method ExtractJsonValue(json: string, anchor: string, capacity: nat) returns (status: Status, text: Option<string>)
    ensures Extracted(status, text) == Extract(json, anchor, capacity)
  {
    if capacity == 0 {
      return InvalidArgument, None;
    }
    var value := Find(json, anchor, 0);
    if !MatchesAt(json, anchor, value) {
      return NotFound, None;
    }
    value := FindChar(json, ':', value);
    if value == |json| {
      return ParseError, None;
    }
    value := value + 1;
    ghost var afterColon := value;
    while value < |json| && Blank(json[value])
      invariant afterColon <= value <= |json|
      invariant SkipBlanks(json, value) == SkipBlanks(json, afterColon)
    {
      value := value + 1;
    }
    assert ValueStart(json, anchor) == At(value);
    var end := FindValueEnd(json, value);
    if end.None? {
      return ParseError, None;
    }
    if end.value - value + 1 > capacity {
      return BufferTooSmall, None;
    }
    return Ok, Some(json[value..end.value]);
  }

  function Trimmed(text: string): string
  {
    if |text| >= 2 && text[0] == '"' && text[|text| - 1] == '"' then text[1..|text| - 1] else text
  }

  // ----- scanning inverts printing

  lemma {:induction false} FindFirst(text: string, part: string, from: nat, p: nat)
    requires from <= p < |text| && MatchesAt(text, part, p)
    requires forall j: nat | from <= j < p :: !MatchesAt(text, part, j)
    ensures Find(text, part, from) == p
  {
  }

  lemma {:induction false} ScalarEndsAt(json: string, at: nat, end: nat)
    requires at <= end < |json| && (json[end] == ',' || json[end] == '}')
    requires forall i | at <= i < end :: json[i] != ',' && json[i] != '}'
    ensures ScalarEnd(json, at) == end
    decreases end - at
  {
    if at < end {
      ScalarEndsAt(json, at + 1, end);
    }
  }

  lemma ScalarDelimited(before: string, word: string, post: string)
    requires Word(word) && EndsValue(post)
    ensures var json := before + (word + post); ValueEnd(json, |before|) == Some(|before| + |word|)
  {
    var json, at := before + (word + post), |before|;
    assert forall q | at <= q < at + |word| :: json[q] == word[q - at];
    assert json[at + |word|] == post[0];
    ScalarEndsAt(json, at, at + |word|);
  }

  lemma ObjectDelimited(before: string, inner: string, post: string)
    requires Neutral(inner)
    ensures var v := ['{'] + inner + ['}']; ValueEnd(before + (v + post), |before|) == Some(|before| + |v|)
  {
    var json := before + (['{'] + inner + ['}'] + post);
    assert Passes(inner, ['}'] + post, 1);
    assert json[|before| + 1..] == inner + (['}'] + post);
    assert (['}'] + post)[1..] == post;
    assert Close(['}'] + post, 1) == Some(1);
  }

  lemma TextDelimited(before: string, text: string, post: string)
    requires PlainText(text)
    ensures ValueEnd(before + (Quote(text) + post), |before|) == Some(|before| + |text| + 2)
  {
    var json, at := before + (Quote(text) + post), |before|;
    assert forall q | at + 1 <= q < at + 1 + |text| :: json[q] == text[q - at - 1];
    assert json[at + 1 + |text|] == '"';
  }

  /** A value followed by the end of its member is delimited exactly. */
  lemma ValueDelimited(before: string, v: Json, post: string)
    requires Tidy(v) && EndsValue(post)
    ensures var json := before + (Print(v) + post); ValueEnd(json, |before|) == Some(|before| + |Print(v)|)
    ensures Print(v) != "" && !Blank(Print(v)[0])
  {
    match v {
      case Text(text) => TextDelimited(before, text, post);
      case Object(members) =>
        MembersNeutral(members);
        ObjectDelimited(before, PrintMembers(members), post);
      case _ =>
        ScalarIsWord(v);
        ScalarDelimited(before, Print(v), post);
    }
  }

  lemma FirstIsTidy(v: Json, key: Key)
    requires Tidy(v) && First(v, key).Some?
    ensures Tidy(First(v, key).value)
    decreases v, 1
  {
    FirstInIsTidy(v.members, key);
  }

  lemma FirstInIsTidy(ms: Members, key: Key)
    requires TidyMembers(ms) && FirstIn(ms, key).Some?
    ensures Tidy(FirstIn(ms, key).value)
    decreases ms, 0
  {
    if ms.key != key {
      if First(ms.value, key).Some? {
        FirstIsTidy(ms.value, key);
      } else {
        FirstInIsTidy(ms.rest, key);
      }
    }
  }

  lemma KeyFound(before: string, key: string, tail: string)
    requires Clear(before + (Quote(key) + tail), Quote(key), |before|)
    ensures var json := before + (Quote(key) + tail);
      Find(json, Quote(key), 0) == |before| && MatchesAt(json, Quote(key), |before|)
  {
    MiddleOf(before, Quote(key), tail);
    FindFirst(before + (Quote(key) + tail), Quote(key), 0, |before|);
  }

  lemma NoColonIn(key: string, q: nat)
    requires Word(key) && q < |key| + 2
    ensures Quote(key)[q] != ':'
  {
    if 0 < q <= |key| {
      assert Quote(key)[q] == key[q - 1];
    }
  }

  lemma CharInMiddle(before: string, middle: string, tail: string, q: nat)
    requires |before| <= q < |before| + |middle|
    ensures (before + (middle + tail))[q] == middle[q - |before|]
  {
  }

  lemma CharAfterMiddle(before: string, middle: string, c: char, more: string)
    ensures var text := before + (middle + ([c] + more));
      |before| + |middle| < |text| && text[|before| + |middle|] == c
  {
  }

  lemma FindCharAfter(before: string, middle: string, c: char, more: string)
    requires forall q: nat | q < |middle| :: middle[q] != c
    ensures FindChar(before + (middle + ([c] + more)), c, |before|) == |before| + |middle|
  {
    var text := before + (middle + ([c] + more));
    forall q: nat | |before| <= q < |before| + |middle|
      ensures text[q] != c
    {
      CharInMiddle(before, middle, [c] + more, q);
    }
    CharAfterMiddle(before, middle, c, more);
    FindCharFirst(text, c, |before|, |before| + |middle|);
  }

  /** Nothing before the key matches: the search stops there, and the next colon is the key's own. */
  lemma ColonAfterKey(before: string, key: string, more: string)
    requires Word(key) && Clear(before + (Quote(key) + ([':'] + more)), Quote(key), |before|)
    ensures var json := before + (Quote(key) + ([':'] + more));
      Find(json, Quote(key), 0) == |before| && MatchesAt(json, Quote(key), |before|)
      && FindChar(json, ':', |before|) == |before| + |key| + 2
  {
    KeyFound(before, key, [':'] + more);
    forall q: nat | q < |Quote(key)|
      ensures Quote(key)[q] != ':'
    {
      NoColonIn(key, q);
    }
    FindCharAfter(before, Quote(key), ':', more);
  }

  lemma FindCharFirst(text: string, c: char, from: nat, at: nat)
    requires from <= at < |text| && text[at] == c && forall q: nat | from <= q < at :: text[q] != c
    ensures FindChar(text, c, from) == at
  {
  }

  lemma NoBlankSkipped(json: string, at: nat)
    requires at < |json| && !Blank(json[at])
    ensures SkipBlanks(json, at) == at
  {
  }

  lemma StartAfterHit(json: string, key: string, v: Json, p: nat, post: string)
    requires Word(key) && Tidy(v) && Hit(json, key, v, p, post)
    ensures ValueStart(json, Quote(key)) == At(p + |key| + 3)
    ensures p + |key| + 3 <= |json| && json == json[..p + |key| + 3] + (Print(v) + post)
  {
    var before, more := json[..p], Print(v) + post;
    assert json == before + json[p..] == before + (Quote(key) + ([':'] + more));
    ColonAfterKey(before, key, more);
    var at := p + |key| + 3;
    ValueDelimited(json[..at], v, post);
    assert json[at..] == more;
    assert json[at] == more[0] == Print(v)[0];
    NoBlankSkipped(json, at);
  }

  lemma MiddleOf(a: string, b: string, c: string)
    ensures (a + (b + c))[|a|..|a| + |b|] == b
  {
  }

  lemma ExtractBetween(json: string, anchor: string, capacity: nat, before: string, v: Json, post: string)
    requires json == before + (Print(v) + post) && Tidy(v) && EndsValue(post)
    requires ValueStart(json, anchor) == At(|before|) && capacity > 0
    ensures Extract(json, anchor, capacity) ==
      if |Print(v)| < capacity then Extracted(Ok, Some(Print(v))) else Extracted(BufferTooSmall, None)
  {
    ValueDelimited(before, v, post);
    MiddleOf(before, Print(v), post);
  }

  lemma ExtractAtHit(json: string, key: string, v: Json, p: nat, post: string, capacity: nat)
    requires Word(key) && Tidy(v) && Hit(json, key, v, p, post) && capacity > 0
    ensures Extract(json, Quote(key), capacity) ==
      if |Print(v)| < capacity then Extracted(Ok, Some(Print(v))) else Extracted(BufferTooSmall, None)
  {
    StartAfterHit(json, key, v, p, post);
    ExtractBetween(json, Quote(key), capacity, json[..p + |key| + 3], v, post);
  }

  /** For any printed object whose strings need no care and none of which reads like the key, the scanner returns
      exactly the text printed for the first member of that name when it fits, and says so when it does not or when
      there is none. */
  lemma ExtractInvertsPrint(v: Json, key: Key, capacity: nat)
    requires v.Object? && Tidy(v) && NoText(v, key) && capacity > 0
    ensures Extract(Print(v), Quote(KeyText(key)), capacity) ==
      match First(v, key)
      case None => Extracted(NotFound, None)
      case Some(x) => if |Print(x)| < capacity then Extracted(Ok, Some(Print(x))) else Extracted(BufferTooSmall, None)
  {
    assert Print(v) + "" == Print(v);
    var p, post := Search(v, "", key);
    if First(v, key).Some? {
      FirstIsTidy(v, key);
      KeyIsWord(key);
      ExtractAtHit(Print(v), KeyText(key), First(v, key).value, p, post, capacity);
    } else {
      NeverFound(Print(v), KeyText(key));
    }
  }

  lemma NeverFound(json: string, key: string)
    requires Clear(json, Quote(key), |json|)
    ensures !MatchesAt(json, Quote(key), Find(json, Quote(key), 0))
  {
  }

  /** The quotes of an extracted string come off again. */
  lemma TrimInvertsQuote(text: string)
    ensures Trimmed(Print(Text(text))) == text
  {
  }

  /** `trim_quotes`, moving the text in its buffer. */
  method TrimQuotes(buffer: array<char>, length: nat) returns (trimmed: nat)
    requires length <= buffer.Length
    modifies buffer
    ensures trimmed <= buffer.Length && buffer[..trimmed] == Trimmed(old(buffer[..length]))
  {
    trimmed := length;
    if length >= 2 && buffer[0] == '"' && buffer[length - 1] == '"' {
      ghost var was := buffer[..length];
      var i := 0;
      while i < length - 2
        invariant 0 <= i <= length - 2
        invariant buffer[..i] == was[1..i + 1]
        invariant forall k | i <= k < length :: buffer[k] == was[k]
      {
        buffer[i] := buffer[i + 1];
        i := i + 1;
      }
      trimmed := length - 2;
    }
  }
}
