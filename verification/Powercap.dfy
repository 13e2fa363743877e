// The powercap tree of the standard backend: zone selection, constraint lookup, reading, and the
// write-then-verify apply (src/backends/standard/powercap.c).
module Powercap {
  import opened Types
  import opened CText

  /** `constraint_<i>_power_limit_uw`: missing, present but not readable as a number, or a value. */
  datatype LimitFile = Absent | Unreadable | Holds(microwatts: u32)

  datatype Constraint = Constraint(name: Option<string>, limit: LimitFile)

  const MAX_CONSTRAINTS: nat := 8

  type Constraints = c: seq<Constraint> | |c| == 8 witness seq(8, _ => Constraint(None, Absent))

  datatype Zone = Zone(entry: string, name: string, constraints: Constraints)

  /** The directory as listed; the order of its entries is arbitrary. */
  datatype Directory = Unopenable(error: Failure) | Zones(zones: seq<Zone>)

  // ----- constraint lookup

  predicate Usable(c: Constraint, preferred: string)
  {
    c.name == Some(preferred) && !c.limit.Absent?
  }

  /** The constraint index a limit is read from and written to: the first usable one with the
      preferred name, else the fallback index if its file exists. */
  function Resolve(cs: Constraints, preferred: string, fallback: nat): Option<nat>
    requires fallback < MAX_CONSTRAINTS
  {
    if exists i: nat | i < MAX_CONSTRAINTS :: Usable(cs[i], preferred) then Some(FirstUsable(cs, preferred, 0))
    else if !cs[fallback].limit.Absent? then Some(fallback)
    else None
  }

  function FirstUsable(cs: Constraints, preferred: string, from: nat): (i: nat)
    requires exists j: nat | from <= j < MAX_CONSTRAINTS :: Usable(cs[j], preferred)
    ensures from <= i < MAX_CONSTRAINTS && Usable(cs[i], preferred)
    ensures forall j: nat | from <= j < i :: !Usable(cs[j], preferred)
    decreases MAX_CONSTRAINTS - from
  {
    if Usable(cs[from], preferred) then from else FirstUsable(cs, preferred, from + 1)
  }

  method ResolveConstraint(cs: Constraints, preferred: string, fallback: nat) returns (index: Option<nat>)
    requires fallback < MAX_CONSTRAINTS
    ensures index == Resolve(cs, preferred, fallback)
  {
    var i: nat := 0;
    while i < MAX_CONSTRAINTS
      invariant i <= MAX_CONSTRAINTS
      invariant forall j: nat | j < i :: !Usable(cs[j], preferred)
    {
      if cs[i].name == Some(preferred) && !cs[i].limit.Absent? {
        assert Usable(cs[i], preferred);
        return Some(i);
      }
      i := i + 1;
    }
    index := if !cs[fallback].limit.Absent? then Some(fallback) else None;
  }

  // ----- zone selection

  function CountChar(text: string, c: char): nat
  {
    if text == "" then 0 else CountChar(text[..|text| - 1], c) + if text[|text| - 1] == c then 1 else 0
  }

  method CountCharLoop(text: string, c: char) returns (count: nat)
    ensures count == CountChar(text, c)
  {
    count := 0;
    var i := 0;
    while i < |text|
      invariant 0 <= i <= |text| && count == CountChar(text[..i], c)
    {
      assert text[..i + 1][..i] == text[..i];
      if text[i] == c {
        count := count + 1;
      }
      i := i + 1;
    }
    assert text[..i] == text;
  }

  predicate IsSubzoneName(name: string)
  {
    name == "core" || name == "uncore" || name == "dram" || name == "psys"
  }

  function Score(zone: Zone): int
  {
    (if "package-" <= zone.name then 1000 else 0)
    + (if "intel-rapl:" <= zone.entry then 200 else if "intel-rapl-mmio:" <= zone.entry then 100 else 0)
    - (if Contains(zone.entry, "mmio") then 50 else 0)
    - (if CountChar(zone.entry, ':') > 1 then 300 else 0)
    - (if IsSubzoneName(zone.name) then 500 else 0)
  }

  /** `candidate_score`, accumulated test by test. */
  method CandidateScore(zone: Zone) returns (score: int)
    ensures score == Score(zone)
  {
    score := 0;
    if "package-" <= zone.name {
      score := score + 1000;
    }
    if "intel-rapl:" <= zone.entry {
      score := score + 200;
    } else if "intel-rapl-mmio:" <= zone.entry {
      score := score + 100;
    }
    if Contains(zone.entry, "mmio") {
      score := score - 50;
    }
    var colons := CountCharLoop(zone.entry, ':');
    if colons > 1 {
      score := score - 300;
    }
    if IsSubzoneName(zone.name) {
      score := score - 500;
    }
  }

  predicate Eligible(zone: Zone)
  {
    && !("." <= zone.entry)
    && (Resolve(zone.constraints, "long_term", 0).Some? || Resolve(zone.constraints, "short_term", 1).Some?)
  }

  /** The first eligible entry of greatest score. */
  ghost predicate Selected(zones: seq<Zone>, i: nat)
  {
    && i < |zones| && Eligible(zones[i])
    && (forall j | 0 <= j < |zones| && Eligible(zones[j]) :: Score(zones[j]) <= Score(zones[i]))
    && (forall j | 0 <= j < i && Eligible(zones[j]) :: Score(zones[j]) < Score(zones[i]))
  }

  method SelectZone(d: Directory) returns (status: Status, index: nat)
    ensures d.Unopenable? ==> status == d.error
    ensures d.Zones? ==> status == if exists i | 0 <= i < |d.zones| :: Eligible(d.zones[i]) then Ok else NotFound
    ensures status == Ok ==> d.Zones? && Selected(d.zones, index)
  {
    index := 0;
    if d.Unopenable? {
      return d.error, index;
    }
    var best := -1_000_000;
    var found := false;
    var k := 0;
    while k < |d.zones|
      invariant 0 <= k <= |d.zones|
      invariant found ==> index < k && Eligible(d.zones[index]) && best == Score(d.zones[index])
      invariant found <==> exists i | 0 <= i < k :: Eligible(d.zones[i])
      invariant !found ==> best == -1_000_000
      invariant forall j | 0 <= j < k && Eligible(d.zones[j]) :: found && Score(d.zones[j]) <= best
      invariant forall j | 0 <= j < index && found && Eligible(d.zones[j]) :: Score(d.zones[j]) < best
    {
      var zone := d.zones[k];
      if !("." <= zone.entry) {
        var longTerm := ResolveConstraint(zone.constraints, "long_term", 0);
        var shortTerm := ResolveConstraint(zone.constraints, "short_term", 1);
        if longTerm.Some? || shortTerm.Some? {
          var score := CandidateScore(zone);
          assert Eligible(zone) && score >= -850;
          if score > best {
            best, index, found := score, k, true;
          }
        }
      }
      k := k + 1;
    }
    status := if found then Ok else NotFound;
  }

  lemma SelectedUnique(zones: seq<Zone>, i: nat, j: nat)
    requires Selected(zones, i) && Selected(zones, j)
    ensures i == j
  {
  }

  lemma {:induction false} SelectedExists(zones: seq<Zone>) returns (i: nat)
    requires exists k | 0 <= k < |zones| :: Eligible(zones[k])
    ensures Selected(zones, i)
  {
    var front, last := zones[..|zones| - 1], |zones| - 1;
    assert forall k | 0 <= k < last :: front[k] == zones[k];
    if exists k | 0 <= k < |front| :: Eligible(front[k]) {
      i := SelectedExists(front);
      if Eligible(zones[last]) && Score(zones[last]) > Score(front[i]) {
        i := last;
      }
    } else {
      i := last;
    }
  }

  /** Any eligible package zone wins over every zone that is not one. */
  lemma PackageZoneWins(zones: seq<Zone>, i: nat, p: nat)
    requires Selected(zones, i)
    requires p < |zones| && Eligible(zones[p]) && "package-" <= zones[p].name
    ensures "package-" <= zones[i].name
  {
    assert !IsSubzoneName(zones[p].name) by {
      assert |"package-"| == 8;
    }
    assert Score(zones[p]) >= 650;
  }

  // ----- reading

  /** `(uint8_t)((value + 500000u) / 1000000u)` in 32-bit arithmetic. */
  function Watts(microwatts: u32): byte
  {
    (microwatts + 500_000) % 0x1_0000_0000 / 1_000_000 % 0x100
  }

  function Microwatts(watts: byte): u32
  {
    watts * 1_000_000
  }

  lemma WattsRoundTrip(watts: byte)
    ensures Watts(Microwatts(watts)) == watts
  {
  }

  function ReadConstraint(cs: Constraints, preferred: string, fallback: nat): OptByte
    requires fallback < MAX_CONSTRAINTS
  {
    match Resolve(cs, preferred, fallback)
    case None => ABSENT
    case Some(i) =>
      if i < MAX_CONSTRAINTS && cs[i].limit.Holds? && Watts(cs[i].limit.microwatts) != 0
      then OptByte(true, Watts(cs[i].limit.microwatts)) else ABSENT
  }

  function ReadZone(cs: Constraints): PowerLimits
  {
    PowerLimits(ReadConstraint(cs, "long_term", 0), ReadConstraint(cs, "short_term", 1), ABSENT, ABSENT)
  }

  ghost function SelectedZone(d: Directory): Option<nat>
  {
    if d.Zones? && exists i: nat :: Selected(d.zones, i) then
      var i: nat :| Selected(d.zones, i);
      Some(i)
    else None
  }

  /** The limits the selected zone shows. */
  ghost function Shown(d: Directory): PowerLimits
  {
    match SelectedZone(d)
    case None => NO_LIMITS
    case Some(i) => if d.Zones? && i < |d.zones| then ReadZone(d.zones[i].constraints) else NO_LIMITS
  }

  lemma SelectionKnown(d: Directory, i: nat)
    requires d.Zones? && Selected(d.zones, i)
    ensures SelectedZone(d) == Some(i) && Shown(d) == ReadZone(d.zones[i].constraints)
  {
    var j :| SelectedZone(d) == Some(j);
    SelectedUnique(d.zones, i, j);
  }

  // ----- applying

  /** What one write of a limit file does: the driver may refuse it or store another value, and closing the file may
      report an error although the value was stored. */
  datatype Write = Stores(microwatts: u32) | Fails(error: FileError) | StoresUnconfirmed(microwatts: u32)

  /** The errors a sysfs write is mapped to. */
  type FileError = s: Status | s == NotFound || s == Permission || s == IoError witness IoError

  /** The driver's answer to the first and second write of a call. */
  type Driver = (nat, u32) -> Write

  function WithLimit(d: Directory, zone: nat, index: nat, value: u32): Directory
    requires d.Zones? && zone < |d.zones| && index < MAX_CONSTRAINTS
  {
    var z := d.zones[zone];
    Zones(d.zones[zone := z.(constraints := z.constraints[index := z.constraints[index].(limit := Holds(value))])])
  }

  lemma ResolveAfterWrite(cs: Constraints, index: nat, value: u32, preferred: string, fallback: nat)
    requires index < MAX_CONSTRAINTS && !cs[index].limit.Absent? && fallback < MAX_CONSTRAINTS
    ensures Resolve(cs[index := cs[index].(limit := Holds(value))], preferred, fallback) ==
      Resolve(cs, preferred, fallback)
  {
    var after: Constraints := cs[index := cs[index].(limit := Holds(value))];
    assert forall i: nat | i < MAX_CONSTRAINTS :: Usable(after[i], preferred) <==> Usable(cs[i], preferred);
    if exists i: nat | i < MAX_CONSTRAINTS :: Usable(cs[i], preferred) {
      var i: nat :| i < MAX_CONSTRAINTS && Usable(cs[i], preferred);
      assert Usable(after[i], preferred);
      var a, b := FirstUsable(cs, preferred, 0), FirstUsable(after, preferred, 0);
      assert Usable(after[a], preferred) && Usable(cs[b], preferred);
    }
  }

  /** Writing an existing limit never changes which zone is selected. */
  lemma SelectionAfterWrite(d: Directory, zone: nat, index: nat, value: u32, i: nat)
    requires d.Zones? && zone < |d.zones| && index < MAX_CONSTRAINTS
    requires !d.zones[zone].constraints[index].limit.Absent?
    requires Selected(d.zones, i)
    ensures Selected(WithLimit(d, zone, index, value).zones, i)
  {
    var after := WithLimit(d, zone, index, value).zones;
    forall j | 0 <= j < |d.zones|
      ensures Eligible(after[j]) == Eligible(d.zones[j]) && Score(after[j]) == Score(d.zones[j])
    {
      if j == zone {
        ResolveAfterWrite(d.zones[zone].constraints, index, value, "long_term", 0);
        ResolveAfterWrite(d.zones[zone].constraints, index, value, "short_term", 1);
      }
    }
  }


  datatype Applied = Applied(directory: Directory, status: Status, result: Result)

  /** Which limit a write is about: its constraint, its texts. */
  datatype Slot = LongTerm | ShortTerm

  function SlotName(slot: Slot): string { if slot.LongTerm? then "long_term" else "short_term" }
  function SlotIndex(slot: Slot): nat { if slot.LongTerm? then 0 else 1 }
  function SlotStage(slot: Slot): string { if slot.LongTerm? then "write-powercap-pl1" else "write-powercap-pl2" }
  function SlotMissing(slot: Slot): string
  {
    if slot.LongTerm? then "powercap long_term constraint is unavailable"
        else "powercap short_term constraint is unavailable"
  }
  function SlotFailed(slot: Slot): string
  {
    if slot.LongTerm? then "powercap long_term write failed" else "powercap short_term write failed"
  }

  function Stored(d: Directory, zone: nat, index: nat, value: u32): Directory
    requires d.Zones? && zone < |d.zones|
  {
    if index < MAX_CONSTRAINTS then WithLimit(d, zone, index, value) else d
  }

  function WriteSlot(d: Directory, zone: nat, slot: Slot, limit: OptByte, driver: Driver,
                     incoming: Result): (a: Applied)
    requires d.Zones? && zone < |d.zones|
    ensures a.directory.Zones? && |a.directory.zones| == |d.zones|
  {
    if !limit.present then Applied(d, Ok, incoming)
    else
      var staged := SetStage(incoming, SlotStage(slot));
      match Resolve(d.zones[zone].constraints, SlotName(slot), SlotIndex(slot))
      case None => Applied(d, NotSupported, SetDetail(staged, SlotMissing(slot)))
      case Some(i) =>
        match driver(SlotIndex(slot), Microwatts(limit.value))
        case Fails(error) => Applied(d, error, SetDetail(staged, SlotFailed(slot)))
        case Stores(value) => Applied(Stored(d, zone, i, value), Ok, staged)
        case StoresUnconfirmed(value) => Applied(Stored(d, zone, i, value), IoError,
                                                 SetDetail(staged, SlotFailed(slot)))
  }

  predicate Verified(limit: OptByte, readback: OptByte)
  {
    limit.present ==> readback.present && readback.value == limit.value
  }

  /** The readback after both writes decides the outcome. */
  function VerifyZone(d: Directory, zone: nat, limits: PowerLimits, incoming: Result): Applied
    requires d.Zones? && zone < |d.zones|
  {
    var staged := SetStage(incoming, "verify-powercap");
    var readback := ReadZone(d.zones[zone].constraints);
    if !readback.pl1.present && !readback.pl2.present then
      Applied(d, NotFound, SetDetail(staged, "powercap readback failed after write"))
    else if !Verified(limits.pl1, readback.pl1) || !Verified(limits.pl2, readback.pl2) then
      Applied(d, IoError, SetDetail(staged, "powercap readback mismatch after write"))
    else Applied(d, Ok, staged.(changed := true, hardwareWrite := true))
  }

  function WriteBoth(d: Directory, zone: nat, limits: PowerLimits, driver: Driver, incoming: Result): (a: Applied)
    requires d.Zones? && zone < |d.zones|
    ensures a.directory.Zones? && zone < |a.directory.zones|
  {
    var first := WriteSlot(d, zone, LongTerm, limits.pl1, driver, incoming);
    if first.status != Ok then first
    else WriteSlot(first.directory, zone, ShortTerm, limits.pl2, driver, first.result)
  }

  function ApplyToZone(d: Directory, zone: nat, limits: PowerLimits, driver: Driver, incoming: Result): Applied
    requires d.Zones? && zone < |d.zones|
  {
    var written := WriteBoth(d, zone, limits, driver, incoming);
    if written.status != Ok then written else VerifyZone(written.directory, zone, limits, written.result)
  }

  ghost function ApplyLimits(d: Directory, limits: PowerLimits, driver: Driver, incoming: Result): Applied
  {
    if limits.pl4.present || limits.tcc.present then
      Applied(d, NotSupported, SetDetail(incoming, "standard powercap only supports PL1 and PL2"))
    else if !limits.pl1.present && !limits.pl2.present then
      Applied(d, InvalidArgument, SetDetail(incoming, "power limit write requires PL1 or PL2"))
    else if (limits.pl1.present && limits.pl1.value == 0) || (limits.pl2.present && limits.pl2.value == 0) then
      Applied(d, RangeError, SetDetail(incoming, "powercap PL1 and PL2 must be positive watts"))
    else match SelectedZone(d)
      case None =>
        Applied(d, if d.Unopenable? then d.error else NotFound,
                SetDetail(incoming, "no authoritative powercap package zone found"))
      case Some(zone) =>
        if d.Zones? && zone < |d.zones| then ApplyToZone(d, zone, limits, driver, incoming)
        else Applied(d, NotFound, incoming)
  }

  class PowercapTree {
    var directory: Directory

    /** One `if (limits->plN.present)` block of the apply. */
    method WriteLimit(zone: nat, slot: Slot, limit: OptByte, driver: Driver, incoming: Result)
      returns (status: Status, result: Result)
      requires directory.Zones? && zone < |directory.zones|
      modifies this
      ensures Applied(directory, status, result) == WriteSlot(old(directory), zone, slot, limit, driver, incoming)
      ensures directory.Zones? && |directory.zones| == |old(directory).zones|
    {
      status, result := Ok, incoming;
      if limit.present {
        result := SetStage(result, SlotStage(slot));
        var index := ResolveConstraint(directory.zones[zone].constraints, SlotName(slot), SlotIndex(slot));
        match index {
          case None =>
            status, result := NotSupported, SetDetail(result, SlotMissing(slot));
          case Some(i) =>
            match driver(SlotIndex(slot), Microwatts(limit.value)) {
              case Fails(error) =>
                status, result := error, SetDetail(result, SlotFailed(slot));
              case Stores(value) =>
                directory := Stored(directory, zone, i, value);
              case StoresUnconfirmed(value) =>
                directory := Stored(directory, zone, i, value);
                status, result := IoError, SetDetail(result, SlotFailed(slot));
            }
        }
      }
    }

    /** Both writes, then the readback. */
    method WriteAndVerify(zone: nat, limits: PowerLimits, driver: Driver, incoming: Result)
      returns (status: Status, result: Result)
      requires directory.Zones? && zone < |directory.zones|
      modifies this
      ensures Applied(directory, status, result) == ApplyToZone(old(directory), zone, limits, driver, incoming)
    {
      status, result := WriteLimit(zone, LongTerm, limits.pl1, driver, incoming);
      if status != Ok {
        return;
      }
      status, result := WriteLimit(zone, ShortTerm, limits.pl2, driver, result);
      if status != Ok {
        return;
      }
      var verified := VerifyZone(directory, zone, limits, result);
      status, result := verified.status, verified.result;
    }

    /** `lcc_standard_powercap_apply` */
    method Apply(limits: PowerLimits, driver: Driver, incoming: Result) returns (status: Status, result: Result)
      modifies this
      ensures Applied(directory, status, result) == ApplyLimits(old(directory), limits, driver, incoming)
    {
      if limits.pl4.present || limits.tcc.present {
        return NotSupported, SetDetail(incoming, "standard powercap only supports PL1 and PL2");
      }
      if !limits.pl1.present && !limits.pl2.present {
        return InvalidArgument, SetDetail(incoming, "power limit write requires PL1 or PL2");
      }
      if (limits.pl1.present && limits.pl1.value == 0) || (limits.pl2.present && limits.pl2.value == 0) {
        return RangeError, SetDetail(incoming, "powercap PL1 and PL2 must be positive watts");
      }
      var zone;
      status, zone := SelectZone(directory);
      SelectionIs(directory, status, zone);
      if status != Ok {
        return status, SetDetail(incoming, "no authoritative powercap package zone found");
      }
      status, result := WriteAndVerify(zone, limits, driver, incoming);
    }
  }

  lemma SelectionIs(d: Directory, status: Status, zone: nat)
    requires d.Unopenable? ==> status == d.error
    requires d.Zones? ==> status == if exists i | 0 <= i < |d.zones| :: Eligible(d.zones[i]) then Ok else NotFound
    requires status == Ok ==> d.Zones? && Selected(d.zones, zone)
    ensures SelectedZone(d) == if status == Ok then Some(zone) else None
  {
    if status == Ok {
      SelectionKnown(d, zone);
    }
  }
}
