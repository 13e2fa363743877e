// JSON objects as text: printing, the strings that need no care, balance, and where a quoted key first occurs.
module JsonText {
  import opened Types
  import opened CText
  import opened Keys
  import opened Numbers

  /** `Raw` is text rendered beforehand. */
  datatype Json =
    | Null
    | Bool(truth: bool)
    | Number(number: nat)
    | Text(text: string)
    | Raw(rendered: string)
    | Object(members: Members)

  datatype Members = End | Member(key: Key, value: Json, rest: Members)

  function Quote(s: string): (q: string)
    ensures |q| == |s| + 2
  {
    ['"'] + s + ['"']
  }

  function Scalar(v: Json): string
    requires !v.Text? && !v.Object?
  {
    match v
    case Null => "null"
    case Bool(truth) => if truth then "true" else "false"
    case Number(number) => Decimal(number)
    case Raw(rendered) => rendered
  }

  function Print(v: Json): string
  {
    match v
    case Text(text) => Quote(text)
    case Object(members) => ['{'] + PrintMembers(members) + ['}']
    case _ => Scalar(v)
  }

  function PrintMembers(ms: Members): string
    decreases ms, 0
  {
    match ms
    case End => []
    case Member(key, value, rest) => Quote(KeyText(key)) + ([':'] + (Print(value) + PrintRest(rest)))
  }

  function PrintRest(ms: Members): string
    decreases ms, 1
  {
    if ms.End? then [] else [','] + PrintMembers(ms)
  }

  // ----- text that means itself

  /** Neither escaped (section 7 of RFC 8259) nor a brace. */
  predicate PlainChar(c: char)
  {
    c >= ' ' && c != '"' && c != '\\' && c != '{' && c != '}'
  }

  predicate PlainText(s: string)
  {
    forall i | 0 <= i < |s| :: PlainChar(s[i])
  }

  predicate Tidy(v: Json)
  {
    match v
    case Text(text) => PlainText(text)
    case Raw(_) => false
    case Object(members) => TidyMembers(members)
    case _ => true
  }

  predicate TidyMembers(ms: Members)
  {
    match ms
    case End => true
    case Member(_, value, rest) => Tidy(value) && TidyMembers(rest)
  }

  /** No string value printed before the first member named `key` reads like the key. */
  predicate NoText(v: Json, key: Key)
  {
    match v
    case Text(text) => text != KeyText(key)
    case Object(members) => NoTextIn(members, key)
    case _ => true
  }

  predicate NoTextIn(ms: Members, key: Key)
  {
    match ms
    case End => true
    case Member(k, value, rest) =>
      k == key || (NoText(value, key) && (First(value, key).Some? || NoTextIn(rest, key)))
  }

  lemma {:induction false} DecimalIsWord(n: nat)
    ensures Word(Decimal(n))
  {
    if n >= 10 {
      DecimalIsWord(n / 10);
    }
  }

  lemma ScalarIsWord(v: Json)
    requires Tidy(v) && !v.Text? && !v.Object?
    ensures Word(Print(v))
  {
    match v
    case Number(number) => DecimalIsWord(number);
    case _ =>
  }

  // ----- balance

  /** How many characters close `depth` open braces, if the text closes them. */
  function Close(text: string, depth: nat): Option<nat>
  {
    if depth == 0 then Some(0)
    else if text == "" then None
    else
      match Close(text[1..], if text[0] == '{' then depth + 1 else if text[0] == '}' then depth - 1 else depth)
      case None => None
      case Some(n) => Some(n + 1)
  }

  function Past(n: nat, m: Option<nat>): Option<nat>
  {
    if m.Some? then Some(n + m.value) else None
  }

  /** Scanning `a` leaves every brace depth as it was. */
  ghost predicate Neutral(a: string)
  {
    forall rest: string, depth: nat | depth > 0 :: Passes(a, rest, depth)
  }

  predicate Passes(a: string, rest: string, depth: nat)
  {
    Close(a + rest, depth) == Past(|a|, Close(rest, depth))
  }

  lemma {:induction false} FlatPasses(a: string, rest: string, depth: nat)
    requires depth > 0 && forall i | 0 <= i < |a| :: a[i] != '{' && a[i] != '}'
    ensures Passes(a, rest, depth)
  {
    if a == "" {
      assert a + rest == rest;
    } else {
      assert (a + rest)[1..] == a[1..] + rest;
      FlatPasses(a[1..], rest, depth);
    }
  }

  lemma FlatNeutral(a: string)
    requires forall i | 0 <= i < |a| :: a[i] != '{' && a[i] != '}'
    ensures Neutral(a)
  {
    forall rest: string, depth: nat | depth > 0
      ensures Passes(a, rest, depth)
    {
      FlatPasses(a, rest, depth);
    }
  }

  lemma JoinNeutral(a: string, b: string)
    requires Neutral(a) && Neutral(b)
    ensures Neutral(a + b)
  {
    forall rest: string, depth: nat | depth > 0
      ensures Passes(a + b, rest, depth)
    {
      assert Passes(a, b + rest, depth) && Passes(b, rest, depth);
      assert a + b + rest == a + (b + rest);
    }
  }

  lemma BracedNeutral(inner: string)
    requires Neutral(inner)
    ensures Neutral(['{'] + inner + ['}'])
  {
    var braced := ['{'] + inner + ['}'];
    forall rest: string, depth: nat | depth > 0
      ensures Passes(braced, rest, depth)
    {
      assert Passes(inner, ['}'] + rest, depth + 1);
      assert (braced + rest)[1..] == inner + (['}'] + rest);
      assert (['}'] + rest)[1..] == rest;
    }
  }

  lemma {:induction false} ValueNeutral(v: Json)
    requires Tidy(v)
    ensures Neutral(Print(v))
  {
    if v.Object? {
      MembersNeutral(v.members);
      BracedNeutral(PrintMembers(v.members));
    } else {
      if !v.Text? {
        ScalarIsWord(v);
      }
      FlatNeutral(Print(v));
    }
  }

  lemma {:induction false} MembersNeutral(ms: Members)
    requires TidyMembers(ms)
    ensures Neutral(PrintMembers(ms))
    decreases ms, 0
  {
    if ms.End? {
      FlatNeutral([]);
    } else {
      KeyIsWord(ms.key);
      FlatNeutral(Quote(KeyText(ms.key)));
      FlatNeutral([':']);
      ValueNeutral(ms.value);
      RestNeutral(ms.rest);
      JoinNeutral(Print(ms.value), PrintRest(ms.rest));
      JoinNeutral([':'], Print(ms.value) + PrintRest(ms.rest));
      JoinNeutral(Quote(KeyText(ms.key)), [':'] + (Print(ms.value) + PrintRest(ms.rest)));
    }
  }

  lemma {:induction false} RestNeutral(ms: Members)
    requires TidyMembers(ms)
    ensures Neutral(PrintRest(ms))
    decreases ms, 1
  {
    FlatNeutral([]);
    if ms.Member? {
      FlatNeutral([',']);
      MembersNeutral(ms);
      JoinNeutral([','], PrintMembers(ms));
    }
  }

  /** One object and nothing else: the first brace is closed by the last character (section 4 of RFC 8259). */
  predicate OneObject(text: string)
  {
    text != "" && text[0] == '{' && Close(text[1..], 1) == Some(|text| - 1)
  }

  lemma BracedCloses(inner: string)
    requires Neutral(inner)
    ensures OneObject(['{'] + inner + ['}'])
  {
    var text := ['{'] + inner + ['}'];
    assert Passes(inner, ['}'], 1);
    assert text[1..] == inner + ['}'];
    CloseStepAt(['}']);
  }

  lemma CloseStepAt(last: string)
    requires last == ['}']
    ensures Close(last, 1) == Some(1)
  {
    assert last[1..] == [];
  }

  lemma PrintsOneObject(v: Json)
    requires v.Object? && Tidy(v)
    ensures OneObject(Print(v))
  {
    MembersNeutral(v.members);
    BracedCloses(PrintMembers(v.members));
  }

  // ----- the first occurrence of a quoted key

  /** The value of the first member named `key`, members before what they contain. */
  function First(v: Json, key: Key): Option<Json>
  {
    if v.Object? then FirstIn(v.members, key) else None
  }

  function FirstIn(ms: Members, key: Key): Option<Json>
  {
    match ms
    case End => None
    case Member(k, value, rest) =>
      if k == key then Some(value)
      else if First(value, key).Some? then First(value, key)
      else FirstIn(rest, key)
  }

  /** No match of `part` starts among the first `n` characters. */
  ghost predicate Clear(text: string, part: string, n: nat)
  {
    forall j: nat | j < n :: !MatchesAt(text, part, j)
  }

  predicate EndsValue(post: string) { post != "" && (post[0] == ',' || post[0] == '}') }

  /** The first match of the quoted key is at `p`, and a colon, the value and the end of a member follow. */
  ghost predicate Hit(text: string, key: string, value: Json, p: nat, post: string)
  {
    && p <= |text| && text[p..] == Quote(key) + ([':'] + (Print(value) + post))
    && EndsValue(post) && Clear(text, Quote(key), p)
  }

  lemma MatchShifts(a: string, b: string, part: string, j: nat)
    ensures MatchesAt(a + b, part, |a| + j) <==> MatchesAt(b, part, j)
  {
    if j + |part| <= |b| {
      assert (a + b)[|a| + j..|a| + j + |part|] == b[j..j + |part|];
    }
  }

  lemma ClearJoins(a: string, b: string, part: string, n: nat)
    requires Clear(a + b, part, |a|) && Clear(b, part, n)
    ensures Clear(a + b, part, |a| + n)
  {
    forall j: nat | j < |a| + n
      ensures !MatchesAt(a + b, part, j)
    {
      if j >= |a| {
        MatchShifts(a, b, part, j - |a|);
      }
    }
  }

  lemma HitShifts(a: string, b: string, key: string, value: Json, p: nat, post: string)
    requires Clear(a + b, Quote(key), |a|) && Hit(b, key, value, p, post)
    ensures Hit(a + b, key, value, |a| + p, post)
  {
    ClearJoins(a, b, Quote(key), p);
    assert (a + b)[|a| + p..] == b[p..];
  }

  lemma MatchSpells(text: string, key: string, j: nat)
    requires MatchesAt(text, Quote(key), j)
    ensures text[j] == '"' && text[j + |key| + 1] == '"'
    ensures forall q | j < q <= j + |key| :: text[q] == key[q - j - 1]
  {
    var w, part := Quote(key), text[j..j + |key| + 2];
    assert text[j] == part[0] == w[0] && text[j + |key| + 1] == part[|key| + 1] == w[|key| + 1];
    forall q | j < q <= j + |key|
      ensures text[q] == key[q - j - 1]
    {
      assert text[q] == part[q - j] == w[q - j];
    }
  }

  /** A match can only start at a quote. */
  lemma UnquotedClear(a: string, b: string, key: string)
    requires forall i | 0 <= i < |a| :: a[i] != '"'
    ensures Clear(a + b, Quote(key), |a|)
  {
    forall j: nat | j < |a|
      ensures !MatchesAt(a + b, Quote(key), j)
    {
      assert (a + b)[j] == a[j];
      if MatchesAt(a + b, Quote(key), j) {
        MatchSpells(a + b, key, j);
      }
    }
  }

  predicate Follows(rest: string) { rest == "" || rest[0] == ':' || rest[0] == ',' || rest[0] == '}' }

  /** A key that no punctuation can run into. */
  predicate Name(s: string)
  {
    s != "" && forall i | 0 <= i < |s| :: WordChar(s[i]) || 'A' <= s[i] <= 'Z'
  }

  lemma DifferSomewhere(s: string, key: string)
    requires |s| == |key| && s != key
    ensures exists k :: 0 <= k < |s| && s[k] != key[k]
  {
  }

  /** Another quoted string, followed by punctuation, holds no match: neither at its opening nor at its closing
      quote. */
  lemma QuotedClear(s: string, rest: string, key: string)
    requires PlainText(s) && Name(key) && s != key && Follows(rest)
    ensures Clear(Quote(s) + rest, Quote(key), |s| + 2)
  {
    var text := Quote(s) + rest;
    assert forall q | 1 <= q <= |s| :: text[q] == s[q - 1];
    assert text[|s| + 1] == '"' && (rest != "" ==> text[|s| + 2] == rest[0]);
    if |s| == |key| {
      DifferSomewhere(s, key);
      var k :| 0 <= k < |s| && s[k] != key[k];
      assert text[k + 1] == s[k];
    }
    forall j: nat | j < |s| + 2
      ensures !MatchesAt(text, Quote(key), j)
    {
      if MatchesAt(text, Quote(key), j) {
        MatchSpells(text, key, j);
      }
    }
  }

  /** The outcome of searching the first `n` characters. */
  ghost predicate Searched(text: string, key: Key, found: Option<Json>, n: nat, p: nat, post: string)
  {
    if found.Some? then Hit(text, KeyText(key), found.value, p, post) else Clear(text, Quote(KeyText(key)), n)
  }

  lemma SearchShifts(a: string, b: string, key: Key, found: Option<Json>, n: nat, p: nat, post: string)
    requires Clear(a + b, Quote(KeyText(key)), |a|) && Searched(b, key, found, n, p, post)
    ensures Searched(a + b, key, found, |a| + n, |a| + p, post)
  {
    if found.Some? {
      HitShifts(a, b, KeyText(key), found.value, p, post);
    } else {
      ClearJoins(a, b, Quote(KeyText(key)), n);
    }
  }

  lemma SearchPastChar(c: char, b: string, key: Key, found: Option<Json>, n: nat, p: nat, post: string)
    requires c != '"' && Searched(b, key, found, n, p, post)
    ensures Searched([c] + b, key, found, 1 + n, 1 + p, post)
  {
    UnquotedClear([c], b, KeyText(key));
    SearchShifts([c], b, key, found, n, p, post);
  }

  lemma KeysDifferHere(a: Key, b: Key)
    requires a != b
    ensures KeyText(a) != KeyText(b) && Word(KeyText(a)) && Word(KeyText(b)) && PlainText(KeyText(a))
  {
    if KeyText(a) == KeyText(b) {
      KeysDiffer(a, b);
    }
    KeyIsWord(a);
    KeyIsWord(b);
  }

  lemma HitHere(key: string, value: Json, post: string)
    requires EndsValue(post)
    ensures Hit(Quote(key) + ([':'] + (Print(value) + post)), key, value, 0, post)
  {
    var text := Quote(key) + ([':'] + (Print(value) + post));
    assert text[0..] == text;
  }

  /** Printed text is searched in the order of `First`. */
  lemma {:induction false} Search(v: Json, rest: string, key: Key) returns (p: nat, post: string)
    requires Tidy(v) && NoText(v, key) && Follows(rest)
    ensures Searched(Print(v) + rest, key, First(v, key), |Print(v)|, p, post)
    decreases v, 3
  {
    if v.Object? {
      p, post := SearchObject(v, rest, key);
    } else {
      p, post := 0, "";
      if v.Text? {
        KeyIsWord(key);
        QuotedClear(v.text, rest, KeyText(key));
      } else {
        ScalarIsWord(v);
        UnquotedClear(Print(v), rest, KeyText(key));
      }
    }
  }

  lemma {:induction false} SearchObject(v: Json, rest: string, key: Key) returns (p: nat, post: string)
    requires v.Object? && Tidy(v) && NoText(v, key) && Follows(rest)
    ensures Searched(Print(v) + rest, key, First(v, key), |Print(v)|, p, post)
    decreases v, 2
  {
    p, post := SearchMembers(v.members, ['}'] + rest, key);
    SearchBraced(PrintMembers(v.members), rest, key, First(v, key), p, post);
    p := p + 1;
  }

  lemma SearchBraced(inner: string, rest: string, key: Key, found: Option<Json>, p: nat, post: string)
    requires Searched(inner + (['}'] + rest), key, found, |inner|, p, post)
    ensures Searched(['{'] + inner + ['}'] + rest, key, found, |inner| + 2, p + 1, post)
  {
    var tail := ['}'] + rest;
    UnquotedClear(['}'], rest, KeyText(key));
    SearchExtends(inner, tail, key, found, p, post);
    SearchPastChar('{', inner + tail, key, found, |inner| + 1, p, post);
    assert ['{'] + inner + ['}'] + rest == ['{'] + (inner + tail);
  }

  /** A closing brace adds nothing. */
  lemma SearchExtends(inner: string, tail: string, key: Key, found: Option<Json>, p: nat, post: string)
    requires Searched(inner + tail, key, found, |inner|, p, post) && Clear(tail, Quote(KeyText(key)), 1)
    ensures Searched(inner + tail, key, found, |inner| + 1, p, post)
  {
    if found.None? {
      ClearJoins(inner, tail, Quote(KeyText(key)), 1);
    }
  }

  lemma {:induction false} SearchMembers(ms: Members, rest: string, key: Key) returns (p: nat, post: string)
    requires TidyMembers(ms) && NoTextIn(ms, key) && rest != "" && rest[0] == '}'
    ensures Searched(PrintMembers(ms) + rest, key, FirstIn(ms, key), |PrintMembers(ms)|, p, post)
    decreases ms, 1
  {
    p, post := 0, "";
    if ms.Member? {
      if ms.key == key {
        post := PrintRest(ms.rest) + rest;
        FoundHere(ms, rest, key);
      } else {
        var name := Quote(KeyText(ms.key));
        p, post := SearchNamed(ms, rest, key);
        SearchPastName(ms.key, Named(ms, rest), key, FirstIn(ms, key), |PrintMembers(ms)| - |name|, p, post);
        NameThenRest(ms, rest);
        p := |name| + p;
      }
    }
  }

  lemma FoundHere(ms: Members, rest: string, key: Key)
    requires ms.Member? && ms.key == key && rest != "" && rest[0] == '}'
    ensures Searched(PrintMembers(ms) + rest, key, FirstIn(ms, key), |PrintMembers(ms)|, 0, PrintRest(ms.rest) + rest)
  {
    NameThenRest(ms, rest);
    HitHere(KeyText(key), ms.value, PrintRest(ms.rest) + rest);
  }

  lemma NameThenRest(ms: Members, rest: string)
    requires ms.Member?
    ensures PrintMembers(ms) + rest == Quote(KeyText(ms.key)) + Named(ms, rest)
  {
    var name, value, more := Quote(KeyText(ms.key)), Print(ms.value), PrintRest(ms.rest);
    assert name + ([':'] + (value + more)) + rest == name + ([':'] + (value + (more + rest)));
  }

  lemma SearchPastName(name: Key, named: string, key: Key, found: Option<Json>, n: nat, p: nat, post: string)
    requires name != key && named != "" && named[0] == ':' && Searched(named, key, found, n, p, post)
    ensures Searched(Quote(KeyText(name)) + named, key, found, |Quote(KeyText(name))| + n, |Quote(KeyText(name))| + p,
                     post)
  {
    KeysDifferHere(name, key);
    QuotedClear(KeyText(name), named, KeyText(key));
    SearchShifts(Quote(KeyText(name)), named, key, found, n, p, post);
  }

  /** What follows a member's name. */
  function Named(ms: Members, rest: string): string
    requires ms.Member?
  {
    [':'] + (Print(ms.value) + (PrintRest(ms.rest) + rest))
  }

  /** From the colon on: the value is searched, then what follows it. */
  lemma {:induction false} SearchNamed(ms: Members, rest: string, key: Key) returns (p: nat, post: string)
    requires ms.Member? && ms.key != key
    requires TidyMembers(ms) && NoTextIn(ms, key) && rest != "" && rest[0] == '}'
    ensures Searched(Named(ms, rest), key, FirstIn(ms, key), |PrintMembers(ms)| - |Quote(KeyText(ms.key))|, p, post)
    decreases ms, 0
  {
    p, post := SearchValued(ms, rest, key);
    SearchPastChar(':', Print(ms.value) + (PrintRest(ms.rest) + rest), key, FirstIn(ms, key),
                   |Print(ms.value)| + |PrintRest(ms.rest)|, p, post);
    p := p + 1;
  }

  lemma {:induction false} SearchValued(ms: Members, rest: string, key: Key) returns (p: nat, post: string)
    requires ms.Member? && ms.key != key
    requires TidyMembers(ms) && NoTextIn(ms, key) && rest != "" && rest[0] == '}'
    ensures Searched(Print(ms.value) + (PrintRest(ms.rest) + rest), key, FirstIn(ms, key),
                     |Print(ms.value)| + |PrintRest(ms.rest)|, p, post)
    decreases ms, 0, 0
  {
    var tail := PrintRest(ms.rest) + rest;
    p, post := Search(ms.value, tail, key);
    if First(ms.value, key).None? {
      p, post := SearchRest(ms.rest, rest, key);
      SearchShifts(Print(ms.value), tail, key, FirstIn(ms.rest, key), |PrintRest(ms.rest)|, p, post);
      p := |Print(ms.value)| + p;
    }
  }

  lemma {:induction false} SearchRest(ms: Members, rest: string, key: Key) returns (p: nat, post: string)
    requires TidyMembers(ms) && NoTextIn(ms, key) && rest != "" && rest[0] == '}'
    ensures Searched(PrintRest(ms) + rest, key, FirstIn(ms, key), |PrintRest(ms)|, p, post)
    decreases ms, 2
  {
    p, post := 0, "";
    if ms.Member? {
      p, post := SearchMembers(ms, rest, key);
      var printed := PrintMembers(ms);
      assert PrintRest(ms) + rest == [','] + (printed + rest);
      SearchPastChar(',', printed + rest, key, FirstIn(ms, key), |printed|, p, post);
      p := p + 1;
    }
  }
}
