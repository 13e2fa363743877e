// The hwmon scan of the standard backend: label matching, channel scores, and the best channel for
// each role (src/backends/standard/hwmon.c).
module Hwmon {
  import opened Types
  import opened CText

  // ----- label matching

  function Lower(c: char): char
  {
    if 'A' <= c <= 'Z' then c + ' ' else c
  }

  function LowerText(text: string): (lower: string)
    ensures |lower| == |text| && forall i | 0 <= i < |text| :: lower[i] == Lower(text[i])
  {
    seq(|text|, i requires 0 <= i < |text| => Lower(text[i]))
  }

  /** `text_contains_ci` is case-folded substring containment. */
  method TextContainsCi(haystack: string, needle: string) returns (found: bool)
    ensures found <==> needle != "" && Contains(LowerText(haystack), LowerText(needle))
  {
    if needle == "" || |needle| > |haystack| {
      return false;
    }
    var h, n := LowerText(haystack), LowerText(needle);
    var start := 0;
    while start + |needle| <= |haystack|
      invariant 0 <= start <= |haystack| - |needle| + 1
      invariant forall j: nat | j < start :: !MatchesAt(h, n, j)
    {
      var index := 0;
      while index < |needle| && Lower(haystack[start + index]) == Lower(needle[index])
        invariant 0 <= index <= |needle|
        invariant forall k | 0 <= k < index :: h[start + k] == n[k]
      {
        index := index + 1;
      }
      if index == |needle| {
        assert h[start..start + |n|] == n;
        assert MatchesAt(h, n, start);
        return true;
      }
      assert h[start..start + |n|][index] != n[index];
      start := start + 1;
    }
    return false;
  }

  predicate Mentions(text: string, pattern: string)
  {
    pattern != "" && Contains(LowerText(text), LowerText(pattern))
  }

  predicate NodeLooksCpu(n: string)
  {
    Mentions(n, "coretemp") || Mentions(n, "cpu") || Mentions(n, "peci") || Mentions(n, "k10temp") ||
        Mentions(n, "zenpower")
  }

  predicate NodeLooksGpu(n: string)
  {
    Mentions(n, "amdgpu") || Mentions(n, "gpu") || Mentions(n, "nvidia") || Mentions(n, "radeon")
    || Mentions(n, "nouveau") || Mentions(n, "graphics") || Mentions(n, "vga")
  }

  predicate LabelLooksCpuTemp(l: string)
  {
    Mentions(l, "cpu") || Mentions(l, "package") || Mentions(l, "pkg") || Mentions(l, "processor")
    || Mentions(l, "tdie") || Mentions(l, "tctl") || Mentions(l, "peci")
  }

  predicate LabelLooksGpuTemp(l: string)
  {
    Mentions(l, "gpu") || Mentions(l, "graphics") || Mentions(l, "vga") || Mentions(l, "edge")
    || Mentions(l, "junction") || Mentions(l, "hotspot")
  }

  predicate LabelLooksCpuFan(l: string) { Mentions(l, "cpu") || Mentions(l, "processor") }

  predicate LabelLooksGpuFan(l: string) { Mentions(l, "gpu") || Mentions(l, "graphics") || Mentions(l, "vga") }

  // ----- scores

  datatype Role = CpuTemp | GpuTemp | CpuFan | GpuFan

  /** One channel that could be read, where it was found and what it is called. */
  datatype Reading = Reading(node: string, title: string, channel: nat, value: u32)

  predicate Claims(role: Role, l: string)
  {
    match role
    case CpuTemp => LabelLooksCpuTemp(l)
    case GpuTemp => LabelLooksGpuTemp(l)
    case CpuFan => LabelLooksCpuFan(l)
    case GpuFan => LabelLooksGpuFan(l)
  }

  function Rival(role: Role): Role
  {
    match role
    case CpuTemp => GpuTemp
    case GpuTemp => CpuTemp
    case CpuFan => GpuFan
    case GpuFan => CpuFan
  }

  predicate NodeFits(role: Role, node: string)
  {
    if role.CpuTemp? || role.CpuFan? then NodeLooksCpu(node) else NodeLooksGpu(node)
  }

  /** A label decides first, then a rival label or node excludes, then the node, then the channel number. */
  function Score(role: Role, r: Reading): nat
  {
    var base := if role.CpuTemp? || role.GpuTemp? then 80 else 70;
    var usual := if role.CpuTemp? || role.CpuFan? then 1 else 2;
    if Claims(role, r.title) then 120
    else if Claims(Rival(role), r.title) || NodeFits(Rival(role), r.node) then 0
    else if NodeFits(role, r.node) then base + (if r.channel == 1 then 1 else 0)
    else if r.channel == usual then 20 else 0
  }

  // ----- candidates

  datatype Candidate = Candidate(present: bool, score: nat, value: u32)

  const NO_CANDIDATE := Candidate(false, 0, 0)

  /** `capture_candidate` */
  function Capture(c: Candidate, score: nat, value: u32): Candidate
  {
    if score == 0 then c
    else if !c.present || score > c.score then Candidate(true, score, value)
    else c
  }

  datatype Scored = Scored(score: nat, value: u32)

  function CaptureAll(s: seq<Scored>): Candidate
  {
    if s == [] then NO_CANDIDATE
    else Capture(CaptureAll(s[..|s| - 1]), s[|s| - 1].score, s[|s| - 1].value)
  }

  function Scores(role: Role, readings: seq<Reading>): seq<Scored>
  {
    seq(|readings|, i requires 0 <= i < |readings| => Scored(Score(role, readings[i]), readings[i].value))
  }

  function Best(role: Role, readings: seq<Reading>): Candidate
  {
    CaptureAll(Scores(role, readings))
  }

  /** The earliest entry of the greatest positive score. */
  ghost predicate Winner(s: seq<Scored>, i: nat)
  {
    && i < |s| && s[i].score > 0
    && (forall j | 0 <= j < |s| :: s[j].score <= s[i].score)
    && (forall j | 0 <= j < i :: s[j].score < s[i].score)
  }

  lemma {:induction false} CaptureAllWinner(s: seq<Scored>) returns (i: nat)
    ensures var c := CaptureAll(s);
      if c.present then Winner(s, i) && c.score == s[i].score && c.value == s[i].value
      else c == NO_CANDIDATE && forall j | 0 <= j < |s| :: s[j].score == 0
  {
    i := 0;
    if s != [] {
      var front, last := s[..|s| - 1], |s| - 1;
      i := CaptureAllWinner(front);
      assert forall j | 0 <= j < last :: front[j] == s[j];
      var before := CaptureAll(front);
      if s[last].score > 0 && (!before.present || s[last].score > before.score) {
        i := last;
      }
    }
  }

  /** The role goes to the earliest reading of the greatest score, or to none when no score is positive. */
  lemma BestIsWinner(role: Role, readings: seq<Reading>) returns (i: nat)
    ensures var c := Best(role, readings);
      if c.present then Winner(Scores(role, readings), i) && c.value == readings[i].value
      else forall j | 0 <= j < |readings| :: Scores(role, readings)[j].score == 0
  {
    i := CaptureAllWinner(Scores(role, readings));
  }

  // ----- the scan

  const CHANNELS: nat := 32

  datatype Channel = Channel(value: u32, title: string)

  type Channels = c: seq<Option<Channel>> | |c| == 32 witness seq(32, _ => None)

  /** A hwmon node: channel `k + 1` of each kind, if its input file holds a number. */
  datatype Node = Node(entry: string, name: string, temps: Channels, fans: Channels)

  datatype Listing = Closed(error: Failure) | Nodes(nodes: seq<Node>)

  /** What channel number `n` contributes. */
  function OneReading(name: string, c: Option<Channel>, n: nat): seq<Reading>
  {
    match c
    case None => []
    case Some(channel) => [Reading(name, channel.title, n, channel.value)]
  }

  function ChannelReadings(name: string, channels: Channels, n: nat): seq<Reading>
    requires n <= CHANNELS
  {
    if n == 0 then [] else ChannelReadings(name, channels, n - 1) + OneReading(name, channels[n - 1], n)
  }

  function NodeReadings(node: Node, temps: bool): seq<Reading>
  {
    if "." <= node.entry then [] else ChannelReadings(node.name, if temps then node.temps else node.fans, CHANNELS)
  }

  /** Every readable channel of one kind in scan order. */
  function AllReadings(nodes: seq<Node>, temps: bool): seq<Reading>
  {
    if nodes == [] then []
    else AllReadings(nodes[..|nodes| - 1], temps) + NodeReadings(nodes[|nodes| - 1], temps)
  }

  datatype Candidates = Candidates(cpuTemp: Candidate, gpuTemp: Candidate, cpuFan: Candidate, gpuFan: Candidate)

  function BestOf(temps: seq<Reading>, fans: seq<Reading>): Candidates
  {
    Candidates(Best(CpuTemp, temps), Best(GpuTemp, temps), Best(CpuFan, fans), Best(GpuFan, fans))
  }

  lemma BestSnoc(role: Role, readings: seq<Reading>, r: Reading)
    ensures Best(role, readings + [r]) == Capture(Best(role, readings), Score(role, r), r.value)
  {
    var before, after := Scores(role, readings), Scores(role, readings + [r]);
    assert after[..|after| - 1] == before;
  }

  /** Captures one channel number's temperature and fan, each for its two roles. */
  method ScanChannel(name: string, n: nat, temp: Option<Channel>, fan: Option<Channel>, before: Candidates,
                     ghost t: seq<Reading>, ghost f: seq<Reading>)
    returns (after: Candidates)
    requires before == BestOf(t, f)
    ensures after == BestOf(t + OneReading(name, temp, n), f + OneReading(name, fan, n))
  {
    after := before;
    assert t + [] == t && f + [] == f;
    if temp.Some? {
      var r := Reading(name, temp.value.title, n, temp.value.value);
      BestSnoc(CpuTemp, t, r); BestSnoc(GpuTemp, t, r);
      after := after.(cpuTemp := Capture(after.cpuTemp, Score(CpuTemp, r), r.value),
                      gpuTemp := Capture(after.gpuTemp, Score(GpuTemp, r), r.value));
    }
    if fan.Some? {
      var r := Reading(name, fan.value.title, n, fan.value.value);
      BestSnoc(CpuFan, f, r); BestSnoc(GpuFan, f, r);
      after := after.(cpuFan := Capture(after.cpuFan, Score(CpuFan, r), r.value),
                      gpuFan := Capture(after.gpuFan, Score(GpuFan, r), r.value));
    }
  }

  lemma ExtendReadings(before: seq<Reading>, name: string, channels: Channels, k: nat)
    requires k < CHANNELS
    ensures before + ChannelReadings(name, channels, k + 1) ==
      before + ChannelReadings(name, channels, k) + OneReading(name, channels[k], k + 1)
  {
  }

  method ScanNode(node: Node, before: Candidates, ghost t: seq<Reading>, ghost f: seq<Reading>)
    returns (after: Candidates)
    requires before == BestOf(t, f) && !("." <= node.entry)
    ensures after == BestOf(t + NodeReadings(node, true), f + NodeReadings(node, false))
  {
    after := before;
    assert t + ChannelReadings(node.name, node.temps, 0) == t && f + ChannelReadings(node.name, node.fans, 0) == f;
    var k := 0;
    while k < CHANNELS
      invariant 0 <= k <= CHANNELS
      invariant after == BestOf(t + ChannelReadings(node.name, node.temps, k),
                                f + ChannelReadings(node.name, node.fans, k))
    {
      ExtendReadings(t, node.name, node.temps, k);
      ExtendReadings(f, node.name, node.fans, k);
      after := ScanChannel(node.name, k + 1, node.temps[k], node.fans[k], after,
                           t + ChannelReadings(node.name, node.temps, k), f + ChannelReadings(node.name, node.fans, k));
      k := k + 1;
    }
  }

  /** The nested scan gives each role its best channel over the whole listing. */
  method Scan(nodes: seq<Node>) returns (found: Candidates)
    ensures found == BestOf(AllReadings(nodes, true), AllReadings(nodes, false))
  {
    found := Candidates(NO_CANDIDATE, NO_CANDIDATE, NO_CANDIDATE, NO_CANDIDATE);
    var k := 0;
    while k < |nodes|
      invariant 0 <= k <= |nodes|
      invariant found == BestOf(AllReadings(nodes[..k], true), AllReadings(nodes[..k], false))
    {
      assert nodes[..k + 1][..k] == nodes[..k];
      ghost var t, f := AllReadings(nodes[..k], true), AllReadings(nodes[..k], false);
      if "." <= nodes[k].entry {
        assert t + [] == t && f + [] == f;
      } else {
        found := ScanNode(nodes[k], found, t, f);
      }
      k := k + 1;
    }
    assert nodes[..k] == nodes;
  }

  // ----- which reading a role shows

  function RoleReadings(nodes: seq<Node>, role: Role): seq<Reading>
  {
    AllReadings(nodes, role.CpuTemp? || role.GpuTemp?)
  }

  /** The raw value of the reading that wins the role in the listing. */
  ghost predicate Wins(listing: Listing, role: Role, value: u32)
  {
    listing.Nodes? && exists i: nat ::
      Winner(Scores(role, RoleReadings(listing.nodes, role)), i) && RoleReadings(listing.nodes, role)[i].value == value
  }

  ghost predicate Won(listing: Listing, role: Role) { exists value: u32 :: Wins(listing, role, value) }

  /** A captured candidate is the winning reading, and without a candidate no reading wins. */
  lemma BestWins(nodes: seq<Node>, role: Role)
    ensures var c := Best(role, RoleReadings(nodes, role));
      (c.present ==> Wins(Nodes(nodes), role, c.value)) && (c.present <==> Won(Nodes(nodes), role))
  {
    var readings := RoleReadings(nodes, role);
    var i := BestIsWinner(role, readings);
    if Best(role, readings).present {
      assert Wins(Nodes(nodes), role, Best(role, readings).value);
    }
  }

  // ----- into the snapshot

  /** `lcc_standard_hwmon_read`: the thermal values of the winners; NOT_FOUND when no role has one. */
  function ReadHwmon(listing: Listing, was: Thermal): (Status, Thermal)
  {
    match listing
    case Closed(error) => (error, was)
    case Nodes(nodes) =>
      var c := BestOf(AllReadings(nodes, true), AllReadings(nodes, false));
      var t1 := if c.cpuTemp.present then was.(hasCpuTemp := true, cpuTemp := c.cpuTemp.value / 1000 % 0x100) else was;
      var t2 := if c.gpuTemp.present then t1.(hasGpuTemp := true, gpuTemp := c.gpuTemp.value / 1000 % 0x100) else t1;
      var t3 := if c.cpuFan.present then t2.(hasCpuFan := true, cpuFan := c.cpuFan.value % 0x1_0000) else t2;
      var t4 := if c.gpuFan.present then t3.(hasGpuFan := true, gpuFan := c.gpuFan.value % 0x1_0000) else t3;
      (if c.cpuTemp.present || c.gpuTemp.present || c.cpuFan.present || c.gpuFan.present then Ok else NotFound, t4)
  }
}
