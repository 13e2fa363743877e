// What a powercap apply promises, whatever the driver does.
module PowercapTheorems {
  import opened Types
  import opened Powercap

  lemma WriteSlotKeepsSelection(d: Directory, zone: nat, slot: Slot, limit: OptByte, driver: Driver, incoming: Result)
    requires d.Zones? && Selected(d.zones, zone)
    ensures var a := WriteSlot(d, zone, slot, limit, driver, incoming);
      && a.directory.Zones? && Selected(a.directory.zones, zone)
      && SameResolution(d.zones[zone].constraints, a.directory.zones[zone].constraints)
      && OnlySlotChanged(d.zones[zone].constraints, a.directory.zones[zone].constraints, slot)
      && (forall k | 0 <= k < |d.zones| && k != zone :: k < |a.directory.zones| && a.directory.zones[k] == d.zones[k])
      && |a.directory.zones| == |d.zones|
  {
    var cs := d.zones[zone].constraints;
    var index := Resolve(cs, SlotName(slot), SlotIndex(slot));
    if limit.present && index.Some? && !driver(SlotIndex(slot), Microwatts(limit.value)).Fails? {
      var i, value := index.value, driver(SlotIndex(slot), Microwatts(limit.value)).microwatts;
      ResolvedExists(cs, SlotName(slot), SlotIndex(slot));
      SelectionAfterWrite(d, zone, i, value, zone);
      ResolveAfterWrite(cs, i, value, "long_term", 0);
      ResolveAfterWrite(cs, i, value, "short_term", 1);
    }
  }

  lemma ResolvedExists(cs: Constraints, preferred: string, fallback: nat)
    requires fallback < MAX_CONSTRAINTS
    ensures Resolve(cs, preferred, fallback).Some? ==>
      var i := Resolve(cs, preferred, fallback).value;
      i < MAX_CONSTRAINTS && !cs[i].limit.Absent?
  {
  }

  predicate SameResolution(before: Constraints, after: Constraints)
  {
    && Resolve(after, "long_term", 0) == Resolve(before, "long_term", 0)
    && Resolve(after, "short_term", 1) == Resolve(before, "short_term", 1)
  }

  predicate OnlySlotChanged(before: Constraints, after: Constraints, slot: Slot)
  {
    forall k: nat | k < MAX_CONSTRAINTS && Resolve(before, SlotName(slot), SlotIndex(slot)) != Some(k) ::
        after[k] == before[k]
  }

  function SlotReading(cs: Constraints, slot: Slot): OptByte
  {
    ReadConstraint(cs, SlotName(slot), SlotIndex(slot))
  }

  function Other(slot: Slot): Slot { if slot.LongTerm? then ShortTerm else LongTerm }

  /** A slot write shows in its own reading only, unless the files are shared. */
  lemma WriteSlotReads(d: Directory, zone: nat, slot: Slot, limit: OptByte, driver: Driver, incoming: Result)
    requires d.Zones? && Selected(d.zones, zone)
    ensures var cs := d.zones[zone].constraints;
      var a := WriteSlot(d, zone, slot, limit, driver, incoming);
      && a.directory.Zones? && Selected(a.directory.zones, zone)
      && SameResolution(cs, a.directory.zones[zone].constraints)
      && (OwnFiles(cs) || !limit.present ==>
          SlotReading(a.directory.zones[zone].constraints, Other(slot)) == SlotReading(cs, Other(slot)))
      && (!limit.present ==> a.directory == d && a.status == Ok)
  {
    WriteSlotKeepsSelection(d, zone, slot, limit, driver, incoming);
    ResolvedExists(d.zones[zone].constraints, SlotName(Other(slot)), SlotIndex(Other(slot)));
  }

  /** What the writes leave behind, however far they got. */
  ghost predicate WritesKeep(before: Constraints, after: Constraints, limits: PowerLimits)
  {
    && SameResolution(before, after)
    && (!limits.pl1.present && OwnFiles(before) ==> SlotReading(after, LongTerm) == SlotReading(before, LongTerm))
    && (!limits.pl2.present && OwnFiles(before) ==> SlotReading(after, ShortTerm) == SlotReading(before, ShortTerm))
  }

  lemma WriteBothKeeps(d: Directory, limits: PowerLimits, driver: Driver, incoming: Result, zone: nat)
    requires d.Zones? && Selected(d.zones, zone)
    ensures var a := WriteBoth(d, zone, limits, driver, incoming);
      && Selected(a.directory.zones, zone)
      && WritesKeep(d.zones[zone].constraints, a.directory.zones[zone].constraints, limits)
  {
    WriteSlotReads(d, zone, LongTerm, limits.pl1, driver, incoming);
    var first := WriteSlot(d, zone, LongTerm, limits.pl1, driver, incoming);
    if first.status == Ok {
      WriteSlotReads(first.directory, zone, ShortTerm, limits.pl2, driver, first.result);
    }
  }

  /** What an apply may leave behind. */
  ghost predicate Finished(d: Directory, limits: PowerLimits, status: Status, after: Directory, zone: nat)
    requires d.Zones? && zone < |d.zones|
  {
    && after.Zones? && Selected(after.zones, zone)
    && SameResolution(d.zones[zone].constraints, after.zones[zone].constraints)
    && (!limits.pl1.present && OwnFiles(d.zones[zone].constraints) ==> Shown(after).pl1 == Shown(d).pl1)
    && (!limits.pl2.present && OwnFiles(d.zones[zone].constraints) ==> Shown(after).pl2 == Shown(d).pl2)
    && (status == Ok ==>
          && Askable(limits)
          && (limits.pl1.present ==> Shown(after).pl1 == limits.pl1)
          && (limits.pl2.present ==> Shown(after).pl2 == limits.pl2))
  }

  lemma UntouchedFinished(d: Directory, limits: PowerLimits, status: Status, zone: nat)
    requires d.Zones? && Selected(d.zones, zone) && status != Ok
    ensures Finished(d, limits, status, d, zone)
  {
  }

  /** What a verified readback shows. */
  lemma VerifyShows(d: Directory, zone: nat, limits: PowerLimits, incoming: Result)
    requires d.Zones? && zone < |d.zones|
    ensures var a := VerifyZone(d, zone, limits, incoming); var shown := ReadZone(d.zones[zone].constraints);
      && a.directory == d
      && (a.status == Ok ==> Verified(limits.pl1, shown.pl1) && Verified(limits.pl2, shown.pl2))
  {
  }

  lemma AttemptedFinished(d: Directory, limits: PowerLimits, driver: Driver, incoming: Result, zone: nat)
    requires d.Zones? && Selected(d.zones, zone) && Askable(limits)
    ensures var a := ApplyToZone(d, zone, limits, driver, incoming);
      Finished(d, limits, a.status, a.directory, zone)
  {
    WriteBothKeeps(d, limits, driver, incoming, zone);
    var written := WriteBoth(d, zone, limits, driver, incoming);
    VerifyShows(written.directory, zone, limits, written.result);
    KeptIsFinished(d, written.directory, limits, ApplyToZone(d, zone, limits, driver, incoming).status, zone);
  }

  lemma KeptIsFinished(d: Directory, after: Directory, limits: PowerLimits, status: Status, zone: nat)
    requires d.Zones? && Selected(d.zones, zone) && after.Zones? && Selected(after.zones, zone) && Askable(limits)
    requires WritesKeep(d.zones[zone].constraints, after.zones[zone].constraints, limits)
    requires var shown := ReadZone(after.zones[zone].constraints);
      status == Ok ==> Verified(limits.pl1, shown.pl1) && Verified(limits.pl2, shown.pl2)
    ensures Finished(d, limits, status, after, zone)
  {
    SelectionKnown(d, zone);
    SelectionKnown(after, zone);
  }

  /** Everything a finished apply did: the selected zone is still selected, its constraints still resolve the
      same way, a limit that was not requested and has its own file still reads the same, and on success
      every requested limit reads back as asked. */
  lemma ApplyOutcome(d: Directory, limits: PowerLimits, driver: Driver, incoming: Result, zone: nat)
    requires d.Zones? && Selected(d.zones, zone)
    ensures var a := ApplyLimits(d, limits, driver, incoming);
      Finished(d, limits, a.status, a.directory, zone)
  {
    SelectionKnown(d, zone);
    var a := ApplyLimits(d, limits, driver, incoming);
    if Askable(limits) {
      AttemptedFinished(d, limits, driver, incoming, zone);
      assert a == ApplyToZone(d, zone, limits, driver, incoming);
    } else {
      RefusedUntouched(d, limits, driver, incoming);
      UntouchedFinished(d, limits, a.status, zone);
    }
  }

  /** The two constraints have files of their own. */
  predicate OwnFiles(cs: Constraints)
  {
    var long, short := Resolve(cs, "long_term", 0), Resolve(cs, "short_term", 1);
    long.Some? && short.Some? && long != short
  }

  /** Success means overwriting: with separate files, the shown limits become the old ones overwritten by exactly
      the requested fields. */
  lemma SuccessOverwrites(d: Directory, limits: PowerLimits, driver: Driver, incoming: Result, zone: nat)
    requires d.Zones? && Selected(d.zones, zone) && OwnFiles(d.zones[zone].constraints)
    requires ApplyLimits(d, limits, driver, incoming).status == Ok
    ensures Shown(ApplyLimits(d, limits, driver, incoming).directory) == Shown(d).Overwrite(limits)
  {
    ApplyOutcome(d, limits, driver, incoming, zone);
    var a := ApplyLimits(d, limits, driver, incoming);
    SelectionKnown(d, zone);
    SelectionKnown(a.directory, zone);
  }

  ghost predicate Faithful(driver: Driver)
  {
    forall k, v :: driver(k, v) == Stores(v)
  }

  predicate Askable(limits: PowerLimits)
  {
    && !limits.pl4.present && !limits.tcc.present && (limits.pl1.present || limits.pl2.present)
    && (limits.pl1.present ==> limits.pl1.value > 0) && (limits.pl2.present ==> limits.pl2.value > 0)
  }

  /** The request can be carried out: a file for every requested limit, and no two values for one file. */
  predicate Fits(cs: Constraints, limits: PowerLimits)
  {
    var long, short := Resolve(cs, "long_term", 0), Resolve(cs, "short_term", 1);
    && (limits.pl1.present ==> long.Some?) && (limits.pl2.present ==> short.Some?)
    && (limits.pl1.present && limits.pl2.present ==> long != short || limits.pl1.value == limits.pl2.value)
  }

  predicate FilesExist(cs: Constraints, limits: PowerLimits)
  {
    && (limits.pl1.present ==> Resolve(cs, "long_term", 0).Some?)
    && (limits.pl2.present ==> Resolve(cs, "short_term", 1).Some?)
  }

  /** What a faithful driver leaves: both writes succeed; the second reads back as asked, and so does the first unless
      it shares the file. */
  ghost predicate FaithfulAfter(before: Constraints, after: Constraints, limits: PowerLimits)
  {
    && (limits.pl2.present ==> SlotReading(after, ShortTerm) == OptByte(true, limits.pl2.value))
    && (limits.pl1.present ==>
          SlotReading(after, LongTerm) ==
            OptByte(true, if limits.pl2.present && !OwnFiles(before) then limits.pl2.value else limits.pl1.value))
  }

  lemma FaithfulWrites(d: Directory, limits: PowerLimits, driver: Driver, incoming: Result, zone: nat)
    requires Faithful(driver) && Askable(limits) && d.Zones? && Selected(d.zones, zone)
    requires FilesExist(d.zones[zone].constraints, limits)
    ensures var a := WriteBoth(d, zone, limits, driver, incoming);
      a.status == Ok && FaithfulAfter(d.zones[zone].constraints, a.directory.zones[zone].constraints, limits)
  {
    var first := WriteSlot(d, zone, LongTerm, limits.pl1, driver, incoming);
    WriteSlotKeepsSelection(d, zone, LongTerm, limits.pl1, driver, incoming);
    WriteSlotReads(d, zone, LongTerm, limits.pl1, driver, incoming);
    FaithfulSlot(d, zone, LongTerm, limits.pl1, driver, incoming);
    var second := WriteSlot(first.directory, zone, ShortTerm, limits.pl2, driver, first.result);
    WriteSlotReads(first.directory, zone, ShortTerm, limits.pl2, driver, first.result);
    FaithfulSlot(first.directory, zone, ShortTerm, limits.pl2, driver, first.result);
    if limits.pl1.present && limits.pl2.present && !OwnFiles(d.zones[zone].constraints) {
      WriteSlotKeepsSelection(first.directory, zone, ShortTerm, limits.pl2, driver, first.result);
      var after := second.directory.zones[zone].constraints;
      assert SlotReading(after, LongTerm) == SlotReading(after, ShortTerm);
    }
  }

  lemma FaithfulVerifies(d: Directory, zone: nat, limits: PowerLimits, incoming: Result, before: Constraints)
    requires Askable(limits) && d.Zones? && zone < |d.zones| && FaithfulAfter(before, d.zones[zone].constraints, limits)
    requires FilesExist(before, limits)
    ensures VerifyZone(d, zone, limits, incoming).status == Ok <==> Fits(before, limits)
  {
  }

  lemma MissingFileFails(d: Directory, zone: nat, limits: PowerLimits, driver: Driver, incoming: Result)
    requires d.Zones? && Selected(d.zones, zone) && !FilesExist(d.zones[zone].constraints, limits)
    ensures WriteBoth(d, zone, limits, driver, incoming).status != Ok
  {
    WriteSlotReads(d, zone, LongTerm, limits.pl1, driver, incoming);
  }

  /** With a faithful driver an acceptable request succeeds exactly when every limit it names has a file and it does not
      ask two different values of one shared file. */
  lemma FaithfulSucceeds(d: Directory, limits: PowerLimits, driver: Driver, incoming: Result, zone: nat)
    requires Faithful(driver) && Askable(limits) && d.Zones? && Selected(d.zones, zone)
    ensures ApplyLimits(d, limits, driver, incoming).status == Ok <==> Fits(d.zones[zone].constraints, limits)
  {
    SelectionKnown(d, zone);
    assert ApplyLimits(d, limits, driver, incoming) == ApplyToZone(d, zone, limits, driver, incoming);
    if FilesExist(d.zones[zone].constraints, limits) {
      FaithfulWrites(d, limits, driver, incoming, zone);
      var written := WriteBoth(d, zone, limits, driver, incoming);
      FaithfulVerifies(written.directory, zone, limits, written.result, d.zones[zone].constraints);
    } else {
      MissingFileFails(d, zone, limits, driver, incoming);
    }
  }

  /** A faithful write reads back as written. */
  lemma FaithfulSlot(d: Directory, zone: nat, slot: Slot, limit: OptByte, driver: Driver, incoming: Result)
    requires Faithful(driver) && d.Zones? && Selected(d.zones, zone)
    requires limit.present ==> limit.value > 0 && Resolve(d.zones[zone].constraints, SlotName(slot),
                                                          SlotIndex(slot)).Some?
    ensures var a := WriteSlot(d, zone, slot, limit, driver, incoming);
      && a.status == Ok && a.directory.Zones? && zone < |a.directory.zones|
      && (limit.present ==> SlotReading(a.directory.zones[zone].constraints, slot) == OptByte(true, limit.value))
  {
    WriteSlotKeepsSelection(d, zone, slot, limit, driver, incoming);
    ResolvedExists(d.zones[zone].constraints, SlotName(slot), SlotIndex(slot));
    WattsRoundTrip(limit.value);
    assert driver(SlotIndex(slot), Microwatts(limit.value)) == Stores(Microwatts(limit.value));
  }

  /** A request the tree cannot hold leaves it untouched. */
  lemma RefusedUntouched(d: Directory, limits: PowerLimits, driver: Driver, incoming: Result)
    requires !Askable(limits)
    ensures ApplyLimits(d, limits, driver, incoming).directory == d
    ensures ApplyLimits(d, limits, driver, incoming).status != Ok
    ensures ApplyLimits(d, limits, driver, incoming).status == NotSupported <==>
      limits.pl4.present || limits.tcc.present
  {
  }

  lemma ResolvedSlotIsSupported(d: Directory, zone: nat, slot: Slot, limit: OptByte, driver: Driver, incoming: Result)
    requires d.Zones? && zone < |d.zones|
    requires Resolve(d.zones[zone].constraints, SlotName(slot), SlotIndex(slot)).Some?
    ensures WriteSlot(d, zone, slot, limit, driver, incoming).status != NotSupported
  {
    if limit.present {
      match driver(SlotIndex(slot), Microwatts(limit.value)) {
        case Fails(error) => assert error != NotSupported;
        case _ =>
      }
    }
  }

  lemma VerifyIsSupported(d: Directory, zone: nat, limits: PowerLimits, incoming: Result)
    requires d.Zones? && zone < |d.zones|
    ensures VerifyZone(d, zone, limits, incoming).status != NotSupported
  {
  }

  /** With both constraints present, only a PL4 or TCC field is ever unsupported. */
  lemma ZoneNeverUnsupported(d: Directory, limits: PowerLimits, driver: Driver, incoming: Result, zone: nat)
    requires d.Zones? && Selected(d.zones, zone) && OwnFiles(d.zones[zone].constraints)
    ensures ApplyToZone(d, zone, limits, driver, incoming).status != NotSupported
  {
    ResolvedSlotIsSupported(d, zone, LongTerm, limits.pl1, driver, incoming);
    WriteSlotReads(d, zone, LongTerm, limits.pl1, driver, incoming);
    var first := WriteSlot(d, zone, LongTerm, limits.pl1, driver, incoming);
    if first.status == Ok {
      ResolvedSlotIsSupported(first.directory, zone, ShortTerm, limits.pl2, driver, first.result);
      var second := WriteSlot(first.directory, zone, ShortTerm, limits.pl2, driver, first.result);
      WriteSlotReads(first.directory, zone, ShortTerm, limits.pl2, driver, first.result);
      VerifyIsSupported(second.directory, zone, limits, second.result);
    }
  }
}
