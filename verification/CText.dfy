// Substring matching as the C library's strstr and strchr see it.
module CText {

  predicate MatchesAt(text: string, part: string, i: nat)
  {
    i + |part| <= |text| && text[i..i + |part|] == part
  }

  predicate Contains(text: string, part: string)
  {
    exists i: nat | i <= |text| :: MatchesAt(text, part, i)
  }

  /** `strstr`: the first match at or after `from`, or the length of the text when there is none. */
  function Find(text: string, part: string, from: nat): (i: nat)
    requires from <= |text|
    ensures from <= i <= |text|
    ensures i < |text| ==> MatchesAt(text, part, i)
    ensures forall j: nat | from <= j < i :: !MatchesAt(text, part, j)
    decreases |text| - from
  {
    if from == |text| || MatchesAt(text, part, from) then from else Find(text, part, from + 1)
  }

  /** `strchr`, likewise. */
  function FindChar(text: string, c: char, from: nat): (i: nat)
    requires from <= |text|
    ensures from <= i <= |text|
    ensures i < |text| ==> text[i] == c
    ensures forall j | from <= j < i :: text[j] != c
    decreases |text| - from
  {
    if from == |text| || text[from] == c then from else FindChar(text, c, from + 1)
  }
}
