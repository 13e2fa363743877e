// Where each published value comes from: merging, finalizing and cache marking
// (src/backends/backend.c).
module Attributions {
  import opened Types

  // ----- merging text: a join in the flat lattice "" below every name below "mixed"

  function MergeText(buffer: Text32, value: Text32): Text32
  {
    if value == "" then buffer
    else if buffer == "" then value
    else if buffer == value then buffer
    else "mixed"
  }

  function JoinAll(xs: seq<Text32>): Text32
  {
    if xs == [] then "" else MergeText(JoinAll(xs[..|xs| - 1]), xs[|xs| - 1])
  }

  ghost predicate AllEmpty(xs: seq<Text32>)
  {
    forall x | x in xs :: x == ""
  }

  ghost predicate Unanimous(xs: seq<Text32>, s: Text32)
  {
    s != "" && s in xs && forall x | x in xs :: x == "" || x == s
  }

  /** The join of the contributors, whatever their order. */
  ghost predicate IsJoin(xs: seq<Text32>, r: Text32)
  {
    && (r == "" <==> AllEmpty(xs))
    && (forall s: Text32 :: Unanimous(xs, s) ==> r == s)
    && (r != "" && !Unanimous(xs, r) ==> r == "mixed")
  }

  lemma {:induction false} JoinAllIsJoin(xs: seq<Text32>)
    ensures IsJoin(xs, JoinAll(xs))
  {
    if xs != [] {
      var front, last := xs[..|xs| - 1], xs[|xs| - 1];
      JoinAllIsJoin(front);
      assert last in xs && xs == front + [last];
      JoinStep(front, last, JoinAll(front));
    }
  }

  lemma JoinStep(front: seq<Text32>, last: Text32, before: Text32)
    requires IsJoin(front, before)
    ensures IsJoin(front + [last], MergeText(before, last))
  {
    var xs, r := front + [last], MergeText(before, last);
    assert forall x :: x in xs <==> x in front || x == last;
    assert last in xs;
    if last == "" {
      assert forall s: Text32 :: Unanimous(xs, s) <==> Unanimous(front, s);
      assert AllEmpty(xs) <==> AllEmpty(front);
    } else if before == "" {
      assert Unanimous(xs, last);
    } else {
      assert !AllEmpty(xs);
      forall s: Text32 | Unanimous(xs, s)
        ensures r == s
      {
        assert s == last;
        assert Unanimous(front, s);
      }
      if before == last && Unanimous(front, before) {
        assert Unanimous(xs, last);
      }
    }
  }

  /** Same contributors in any order and multiplicity, same summary. */
  lemma JoinOrderIrrelevant(xs: seq<Text32>, ys: seq<Text32>)
    requires forall x :: x in xs <==> x in ys
    ensures JoinAll(xs) == JoinAll(ys)
  {
    JoinAllIsJoin(xs);
    JoinAllIsJoin(ys);
    var r := JoinAll(xs);
    if r != "" && Unanimous(xs, r) {
      assert Unanimous(ys, r);
    } else if JoinAll(ys) != "" && Unanimous(ys, JoinAll(ys)) {
      assert Unanimous(xs, JoinAll(ys));
    }
  }

  // ----- components

  /** `lcc_backend_effective_component_merge` */
  function MergeComponent(a: Attribution, b: Attribution): Attribution
  {
    Attribution(MergeText(a.source, b.source), MergeText(a.freshness, b.freshness))
  }

  function FieldAttribution(present: bool, a: Attribution): Attribution
  {
    if present then a else Unattributed()
  }

  /** `lcc_backend_effective_power_set_from_limits`; None is the C null pointer. */
  function PowerFromLimits(meta: Meta, limits: Option<PowerLimits>, a: Attribution): Meta
  {
    match limits
    case None => meta.(power := Unattributed(), fields := NoPowerAttribution())
    case Some(l) => meta.(power := Unattributed(), fields := PowerAttribution(
                            FieldAttribution(l.pl1.present, a), FieldAttribution(l.pl2.present, a),
                            FieldAttribution(l.pl4.present, a), FieldAttribution(l.tcc.present, a)))
  }

  // ----- finalizing

  function FieldSources(f: PowerAttribution): seq<Text32>
  {
    [f.pl1.source, f.pl2.source, f.pl4.source, f.tcc.source]
  }

  function FieldFreshnesses(f: PowerAttribution): seq<Text32>
  {
    [f.pl1.freshness, f.pl2.freshness, f.pl4.freshness, f.tcc.freshness]
  }

  predicate AnyField(f: PowerAttribution)
  {
    f.pl1.Given() || f.pl2.Given() || f.pl4.Given() || f.tcc.Given()
  }

  function PowerSummary(meta: Meta): Attribution
  {
    if AnyField(meta.fields) then Attribution(JoinAll(FieldSources(meta.fields)),
                                              JoinAll(FieldFreshnesses(meta.fields)))
    else meta.power
  }

  function Sources(meta: Meta): seq<Text32>
  {
    [meta.profile.source, meta.fanTable.source, meta.fanBoost.source, meta.power.source, meta.thermal.source]
  }

  function Freshnesses(meta: Meta): seq<Text32>
  {
    [meta.profile.freshness, meta.fanTable.freshness, meta.fanBoost.freshness, meta.power.freshness,
     meta.thermal.freshness]
  }

  /** Every summary replaced by the join of what it summarizes. */
  function Finalized(meta: Meta): Meta
  {
    var m := meta.(power := PowerSummary(meta));
    m.(source := JoinAll(Sources(m)), freshness := JoinAll(Freshnesses(m)))
  }

  function FieldAt(index: nat): PowerField
    requires index < 4
  {
    if index == 0 then Pl1 else if index == 1 then Pl2 else if index == 2 then Pl4 else Tcc
  }

  lemma JoinSnoc(xs: seq<Text32>, x: Text32)
    ensures JoinAll(xs + [x]) == MergeText(JoinAll(xs), x)
  {
    assert (xs + [x])[..|xs + [x]| - 1] == xs;
  }

  /** `lcc_backend_effective_meta_finalize`, which clears each summary and merges into it in place. */
  method Finalize(meta: Meta) returns (m: Meta)
    ensures m == Finalized(meta)
  {
    m := meta.(power := Unattributed());
    var hasField := false;
    var index := 0;
    ghost var sources, freshnesses := FieldSources(meta.fields), FieldFreshnesses(meta.fields);
    while index < 4
      invariant 0 <= index <= 4
      invariant m == meta.(power := Attribution(JoinAll(sources[..index]), JoinAll(freshnesses[..index])))
      invariant hasField == exists i: nat | i < index :: meta.fields.Get(FieldAt(i)).Given()
    {
      var component := meta.fields.Get(FieldAt(index));
      assert sources[..index + 1] == sources[..index] + [component.source];
      assert freshnesses[..index + 1] == freshnesses[..index] + [component.freshness];
      JoinSnoc(sources[..index], component.source);
      JoinSnoc(freshnesses[..index], component.freshness);
      if component.Given() {
        hasField := true;
        m := m.(power := MergeComponent(m.power, component));
      }
      index := index + 1;
    }
    assert sources[..4] == sources && freshnesses[..4] == freshnesses;
    if !hasField {
      assert forall i: nat | i < 4 :: !meta.fields.Get(FieldAt(i)).Given();
      assert !meta.fields.Get(FieldAt(0)).Given() && !meta.fields.Get(FieldAt(1)).Given();
      assert !meta.fields.Get(FieldAt(2)).Given() && !meta.fields.Get(FieldAt(3)).Given();
      m := m.(power := meta.power);
    }
    m := m.(source := MergeFive(Sources(m)), freshness := MergeFive(Freshnesses(m)));
  }

  /** The five merges into a cleared summary. */
  function MergeFive(xs: seq<Text32>): (r: Text32)
    requires |xs| == 5
    ensures r == JoinAll(xs)
  {
    assert xs[..1] == [] + [xs[0]] && xs[..2] == xs[..1] + [xs[1]] && xs[..3] == xs[..2] + [xs[2]]
      && xs[..4] == xs[..3] + [xs[3]] && xs == xs[..4] + [xs[4]] by { }
    JoinSnoc([], xs[0]); JoinSnoc(xs[..1], xs[1]); JoinSnoc(xs[..2], xs[2]); JoinSnoc(xs[..3], xs[3]);
    JoinSnoc(xs[..4], xs[4]);
    MergeText(MergeText(MergeText(MergeText(MergeText("", xs[0]), xs[1]), xs[2]), xs[3]), xs[4])
  }

  lemma FinalizeIdempotent(meta: Meta)
    ensures Finalized(Finalized(meta)) == Finalized(meta)
  {
  }

  /** Summaries are what they promise: joins of the components and of the power fields. */
  lemma FinalizedSummaries(meta: Meta)
    ensures var m := Finalized(meta);
      && IsJoin(Sources(m), m.source) && IsJoin(Freshnesses(m), m.freshness)
      && (AnyField(m.fields) ==>
            IsJoin(FieldSources(m.fields), m.power.source) && IsJoin(FieldFreshnesses(m.fields), m.power.freshness))
      && (!AnyField(m.fields) ==> m.power == meta.power)
      && m.profile == meta.profile && m.fanTable == meta.fanTable && m.fanBoost == meta.fanBoost
      && m.thermal == meta.thermal && m.fields == meta.fields
  {
    var m := Finalized(meta);
    JoinAllIsJoin(Sources(m));
    JoinAllIsJoin(Freshnesses(m));
    JoinAllIsJoin(FieldSources(m.fields));
    JoinAllIsJoin(FieldFreshnesses(m.fields));
  }

  // ----- soundness of a published snapshot

  predicate Explains(a: Attribution, present: bool)
  {
    (a.source != "" <==> present) && (a.freshness != "" <==> present)
  }

  /** A live mark promises its source and a fact about the hardware. */
  predicate LiveFrom(a: Attribution, source: Text32, fact: bool)
  {
    a.freshness == "live" ==> a.source == source && fact
  }

  predicate PowerCoherent(t: Target)
  {
    t.hasPower <==> t.power.AnyPresent()
  }

  predicate FieldsExplain(fields: PowerAttribution, limits: PowerLimits)
  {
    && Explains(fields.pl1, limits.pl1.present) && Explains(fields.pl2, limits.pl2.present)
    && Explains(fields.pl4, limits.pl4.present) && Explains(fields.tcc, limits.tcc.present)
  }

  /** Every value has a source exactly when it is present. */
  predicate Explained(s: Snapshot)
  {
    && Explains(s.meta.profile, s.effective.profile != "")
    && Explains(s.meta.fanTable, s.effective.fanTable != "")
    && Explains(s.meta.fanBoost, s.effective.hasBoost)
    && Explains(s.meta.thermal, s.thermal.AnyPresent())
    && FieldsExplain(s.meta.fields, s.effective.power)
    && PowerCoherent(s.effective)
  }

  /** Moreover all summaries are up to date. */
  predicate Sound(s: Snapshot)
  {
    Explained(s) && Finalized(s.meta) == s.meta
  }

  lemma SoundOnceFinalized(s: Snapshot)
    ensures Sound(s.(meta := Finalized(s.meta))) <==> Explained(s)
  {
    FinalizeIdempotent(s.meta);
  }

  function CacheIf(present: bool): Attribution
  {
    if present then Cached() else Unattributed()
  }

  /** `lcc_backend_state_mark_effective_cached` */
  function MarkCached(s: Snapshot): Snapshot
  {
    var meta := s.meta.(profile := CacheIf(s.effective.profile != ""),
                        fanTable := CacheIf(s.effective.fanTable != ""),
                        fanBoost := CacheIf(s.effective.hasBoost));
    var powered := PowerFromLimits(meta, if s.effective.hasPower then Some(s.effective.power) else None, Cached());
    s.(meta := Finalized(powered.(thermal := CacheIf(s.thermal.AnyPresent()))))
  }

  predicate CacheText(text: Text32) { text == "" || text == "cache" }

  predicate CacheOrNothing(a: Attribution) { a.source == a.freshness && CacheText(a.source) }

  predicate OnlyCache(meta: Meta)
  {
    && CacheOrNothing(meta.profile) && CacheOrNothing(meta.fanTable) && CacheOrNothing(meta.fanBoost)
    && CacheOrNothing(meta.thermal) && CacheOrNothing(meta.power)
    && CacheOrNothing(meta.fields.pl1) && CacheOrNothing(meta.fields.pl2)
    && CacheOrNothing(meta.fields.pl4) && CacheOrNothing(meta.fields.tcc)
    && meta.source == meta.freshness && CacheText(meta.source)
  }

  lemma {:induction false} JoinOfCache(xs: seq<Text32>, ys: seq<Text32>)
    requires |xs| == |ys|
    requires forall i | 0 <= i < |xs| :: xs[i] == ys[i] && CacheText(xs[i])
    ensures JoinAll(xs) == JoinAll(ys) && CacheText(JoinAll(xs))
  {
    if xs != [] {
      JoinOfCache(xs[..|xs| - 1], ys[..|ys| - 1]);
    }
  }

  lemma CacheSummary(meta: Meta)
    requires CacheOrNothing(meta.profile) && CacheOrNothing(meta.fanTable) && CacheOrNothing(meta.fanBoost)
    requires CacheOrNothing(meta.thermal) && CacheOrNothing(meta.power)
    requires CacheOrNothing(meta.fields.pl1) && CacheOrNothing(meta.fields.pl2)
    requires CacheOrNothing(meta.fields.pl4) && CacheOrNothing(meta.fields.tcc)
    ensures OnlyCache(Finalized(meta))
  {
    JoinOfCache(FieldSources(meta.fields), FieldFreshnesses(meta.fields));
    var m := meta.(power := PowerSummary(meta));
    assert CacheOrNothing(m.power);
    JoinOfCache(Sources(m), Freshnesses(m));
  }

  /** After a failed refresh nothing claims to be live, and every retained value says so. */
  lemma MarkCachedSound(s: Snapshot)
    ensures OnlyCache(MarkCached(s).meta)
    ensures PowerCoherent(s.effective) ==> Sound(MarkCached(s))
    ensures MarkCached(s) == s.(meta := MarkCached(s).meta)
  {
    var meta := s.meta.(profile := CacheIf(s.effective.profile != ""),
                        fanTable := CacheIf(s.effective.fanTable != ""),
                        fanBoost := CacheIf(s.effective.hasBoost));
    var powered := PowerFromLimits(meta, if s.effective.hasPower then Some(s.effective.power) else None, Cached());
    var raw := powered.(thermal := CacheIf(s.thermal.AnyPresent()));
    CacheSummary(raw);
    FinalizeIdempotent(raw);
    assert MarkCached(s).meta == Finalized(raw);
  }
}
