/**
 * The first two passes of `buildPromptText`: the media-type composite and the
 * ordered resolution of the section table into units of text.
 */
module Resolution {
  import opened Strings
  import opened Values
  import opened Schema
  import opened MergeRules

  /** A resolved unit: its text, and the section and field it came from. */
  datatype Resolved = Resolved(text: string, section: string, field: string)

  /** The merge rules read their inputs as strings. */
  predicate WellTyped(fields: Fields) {
    forall name | name in fields && name in MergeInputs :: fields[name].Str?
  }

  /** A merge rule's view of a field: its string, "" when absent. */
  function MergeInput(fields: Fields, name: string): (r: string)
    requires WellTyped(fields) && name in MergeInputs
    ensures name in fields ==> r == fields[name].s
    ensures name !in fields ==> r == ""
    ensures r != "" <==> Present(fields, name)
  {
    if name in fields then fields[name].s else ""
  }

  // ---------------------------------------------------------------- media type

  /**
   * One selected media type: its subcategory value when that is present
   * (a list is joined; `cinematic` is prefixed with "cinematic "), otherwise
   * the bare media-type word.
   */
  function MediaPart(fields: Fields, mediaType: string): (r: string)
    ensures !(mediaType in MediaSubcatFields && Present(fields, MediaSubcatFields[mediaType])) ==> r == mediaType
    ensures mediaType == "cinematic" && Present(fields, "genre") ==>
      r == "cinematic " + NlJoinValue(fields["genre"])
    ensures mediaType in MediaSubcatFields && mediaType != "cinematic" && Present(fields, MediaSubcatFields[mediaType]) ==>
      r == NlJoinValue(fields[MediaSubcatFields[mediaType]])
  {
    if mediaType in MediaSubcatFields && Present(fields, MediaSubcatFields[mediaType]) then
      var v := fields[MediaSubcatFields[mediaType]];
      if mediaType == "cinematic" then
        "cinematic " + NlJoin(if v.List? then v.items else [v.s])
      else NlJoinValue(v)
    else mediaType
  }

  /** The selected media types: a single string counts as a one-element selection. */
  function MediaTypes(fields: Fields): seq<string>
    requires Present(fields, "media_type")
  {
    match fields["media_type"]
    case Str(s) => [s]
    case List(xs) => xs
  }

  function MediaParts(fields: Fields, types: seq<string>): (r: seq<string>)
    ensures |r| == |types|
    ensures forall i | 0 <= i < |types| :: r[i] == MediaPart(fields, types[i])
  {
    seq(|types|, i requires 0 <= i < |types| => MediaPart(fields, types[i]))
  }

  /** `mediaTypeMerged`: None (`null`) when `media_type` is falsy, else the parts joined by one space. */
  function MediaTypeMerged(fields: Fields): (merged: Option<string>)
    ensures merged.Some? <==> Present(fields, "media_type")
    ensures Present(fields, "media_type") && fields["media_type"].Str? ==>
      merged == Some(MediaPart(fields, fields["media_type"].s))
    ensures Present(fields, "media_type") && fields["media_type"].List? ==>
      merged == Some(Join(MediaParts(fields, fields["media_type"].items), " "))
  {
    if Present(fields, "media_type") then Some(Join(MediaParts(fields, MediaTypes(fields)), " "))
    else None
  }

  /** The composite is truthy, and so emitted. */
  predicate Emits(merged: Option<string>) {
    merged.Some? && merged.value != ""
  }

  /** lib/prompt-builder.js lines 121-143: the parts are pushed one selected media type at a time. */
  method MediaComposite(fields: Fields) returns (merged: Option<string>)
    ensures merged == MediaTypeMerged(fields)
  {
    merged := None;
    if Present(fields, "media_type") {
      var types := match fields["media_type"] case Str(s) => [s] case List(xs) => xs;
      var parts: seq<string> := [];
      for i := 0 to |types|
        invariant |parts| == i
        invariant forall j | 0 <= j < i :: parts[j] == MediaPart(fields, types[j])
      {
        parts := parts + [MediaPart(fields, types[i])];
      }
      assert parts == MediaParts(fields, types);
      merged := Some(Join(parts, " "));
    }
  }

  /** A single `cinematic` selection with genres renders as "cinematic " and the joined genres. */
  lemma CinematicComposite(fields: Fields, genres: seq<string>)
    requires "media_type" in fields && fields["media_type"] == List(["cinematic"])
    requires "genre" in fields && fields["genre"] == List(genres)
    ensures MediaTypeMerged(fields) == Some("cinematic " + NlJoin(genres))
  {
    assert MediaParts(fields, ["cinematic"]) == ["cinematic " + NlJoin(genres)];
  }

  /** A selection of two media types renders as their two parts with one space between. */
  lemma TwoTypeComposite(fields: Fields, first: string, second: string)
    requires "media_type" in fields && fields["media_type"] == List([first, second])
    ensures MediaTypeMerged(fields) == Some(MediaPart(fields, first) + " " + MediaPart(fields, second))
  {
    var parts := MediaParts(fields, [first, second]);
    assert parts == [MediaPart(fields, first)] + [MediaPart(fields, second)];
    JoinAppend([MediaPart(fields, first)], [MediaPart(fields, second)], " ");
  }

  /** A media type without a subcategory value, or one with no subcategory field, renders as itself. */
  lemma BareMediaType(fields: Fields, mediaType: string)
    requires "media_type" in fields && fields["media_type"] == Str(mediaType) && mediaType != ""
    requires mediaType in MediaSubcatFields ==> !Present(fields, MediaSubcatFields[mediaType])
    ensures MediaTypeMerged(fields) == Some(mediaType)
  {
    assert MediaParts(fields, [mediaType]) == [mediaType];
  }

  // ---------------------------------------------------------------- resolution

  /** A non-merged field's text: a list is `nlJoin`ed; `dialogue` would be quoted. */
  function PlainText(name: string, v: Val): (text: string)
    ensures name != "dialogue" || v.List? ==> text == NlJoinValue(v)
    ensures name == "dialogue" && v.Str? ==>
      StartsWith(text, "Dialogue: \"") || StartsWith(text, "Dialogue: \U{201C}")
    ensures name == "dialogue" && v.Str? ==> text == "Dialogue: " + Quoted(v.s)
  {
    if name == "dialogue" && v.Str? then
      var q := Quoted(v.s);
      var text := "Dialogue: " + q;
      assert text[..11] == "Dialogue: " + q[..1];
      text
    else NlJoinValue(v)
  }

  /** lib/prompt-builder.js lines 149-175: what one field of the table contributes. */
  function ResolveField(fields: Fields, merged: Option<string>, section: string, name: string): (units: seq<Resolved>)
    requires WellTyped(fields)
    ensures |units| <= 1
    ensures forall u | u in units :: u.section == section && u.field == name
  {
    if name in MediaAbsorbed then
      if name == "media_type" && Emits(merged) then [Resolved(merged.value, section, name)] else []
    else if name in SkipFields then []
    else if name in MergeRuleTable then
      var rule := MergeRuleTable[name];
      PartnerSkipped(name);
      var a := MergeInput(fields, name);
      var b := MergeInput(fields, rule.mergeWith);
      if a != "" || b != "" then
        [Resolved(Apply(rule.fn, a, b, MergeInput(fields, "custom_location")), section, name)]
      else []
    else if Present(fields, name) then [Resolved(PlainText(name, fields[name]), section, name)]
    else []
  }

  function ResolveNames(fields: Fields, merged: Option<string>, section: string, names: seq<string>): seq<Resolved>
    requires WellTyped(fields)
  {
    if names == [] then []
    else ResolveField(fields, merged, section, names[0]) + ResolveNames(fields, merged, section, names[1..])
  }

  function ResolveSections(fields: Fields, merged: Option<string>, sections: seq<Section>): seq<Resolved>
    requires WellTyped(fields)
  {
    if sections == [] then []
    else
      ResolveNames(fields, merged, sections[0].name, sections[0].fields)
        + ResolveSections(fields, merged, sections[1..])
  }

  /** `allValues`: every unit, in section order and field order. */
  function ResolveAll(fields: Fields, merged: Option<string>): (units: seq<Resolved>)
    requires WellTyped(fields)
    ensures forall u | u in units :: u.field !in SkipFields && (u.field in MediaAbsorbed ==> u.field == "media_type")
  {
    SectionsUnits(fields, merged, SectionOrder);
    ResolveSections(fields, merged, SectionOrder)
  }

  /** lib/prompt-builder.js lines 146-177: the outer walk over the section table (`SECTION_ORDER` in the composer). */
  method ResolveValues(fields: Fields, merged: Option<string>, table: seq<Section>) returns (allValues: seq<Resolved>)
    requires WellTyped(fields)
    ensures allValues == ResolveSections(fields, merged, table)
  {
    allValues := [];
    for si := 0 to |table|
      invariant allValues + ResolveSections(fields, merged, table[si..]) == ResolveSections(fields, merged, table)
    {
      assert table[si..][1..] == table[si + 1..];
      var units := ResolveSection(fields, merged, table[si]);
      allValues := allValues + units;
    }
  }

  /** lib/prompt-builder.js lines 148-176: the inner walk over one section's fields. */
  method ResolveSection(fields: Fields, merged: Option<string>, sec: Section) returns (units: seq<Resolved>)
    requires WellTyped(fields)
    ensures units == ResolveNames(fields, merged, sec.name, sec.fields)
  {
    units := [];
    assert sec.fields[0..] == sec.fields;
    for fi := 0 to |sec.fields|
      invariant units + ResolveNames(fields, merged, sec.name, sec.fields[fi..])
        == ResolveNames(fields, merged, sec.name, sec.fields)
    {
      var add := ResolveOne(fields, merged, sec.name, sec.fields[fi]);
      NamesStepAfter(fields, merged, sec.name, sec.fields, fi, units);
      units := units + add;
    }
    assert sec.fields[|sec.fields|..] == [];
  }

  /** The loop's running result after field i: the units so far, then field i's. */
  lemma NamesStepAfter(fields: Fields, merged: Option<string>, section: string, names: seq<string>, i: int,
                       done: seq<Resolved>)
    requires WellTyped(fields) && 0 <= i < |names|
    ensures done + ResolveNames(fields, merged, section, names[i..])
      == (done + ResolveField(fields, merged, section, names[i])) + ResolveNames(fields, merged, section, names[i + 1..])
  {
    NamesStep(fields, merged, section, names, i);
  }

  // One step of the field loop: resolve field i, then the fields after it.
  lemma NamesStep(fields: Fields, merged: Option<string>, section: string, names: seq<string>, i: int)
    requires WellTyped(fields) && 0 <= i < |names|
    ensures ResolveNames(fields, merged, section, names[i..])
      == ResolveField(fields, merged, section, names[i]) + ResolveNames(fields, merged, section, names[i + 1..])
  {
    assert names[i..][1..] == names[i + 1..];
  }

  /** lib/prompt-builder.js lines 149-175: the loop body for one field; each `continue` is a return. */
  method ResolveOne(fields: Fields, merged: Option<string>, section: string, field: string)
    returns (add: seq<Resolved>)
    requires WellTyped(fields)
    ensures add == ResolveField(fields, merged, section, field)
  {
    add := [];
    if field in MediaAbsorbed {
      if field == "media_type" && merged.Some? && merged.value != "" {
        add := [Resolved(merged.value, section, field)];
      }
      return;
    }
    if field in SkipFields {
      return;
    }
    if field in MergeRuleTable {
      var rule := MergeRuleTable[field];
      PartnerSkipped(field);
      var v1 := MergeInput(fields, field);
      var v2 := MergeInput(fields, rule.mergeWith);
      if v1 != "" || v2 != "" {
        var text := RunRule(rule.fn, v1, v2, MergeInput(fields, "custom_location"));
        add := [Resolved(text, section, field)];
      }
      return;
    }
    if Present(fields, field) {
      add := [Resolved(PlainText(field, fields[field]), section, field)];
    }
  }

  // ---------------------------------------------------------------- properties

  /** The composer reads `fields[name]`: a table field, a merge-rule input or a media field. */
  predicate IsRead(name: string) {
    InTable(name) || name in MergeInputs || name in MediaAbsorbed
  }

  /** A skipped field, or an absorbed field other than `media_type`, never yields a unit. */
  lemma FieldUnits(fields: Fields, merged: Option<string>, section: string, name: string)
    requires WellTyped(fields)
    ensures ResolveField(fields, merged, section, name) != [] ==>
      name !in SkipFields && (name in MediaAbsorbed ==> name == "media_type")
  {
    if name in MediaAbsorbed && name != "media_type" {
      assert ResolveField(fields, merged, section, name) == [];
    } else if name !in MediaAbsorbed && name in SkipFields {
      assert ResolveField(fields, merged, section, name) == [];
    }
  }

  /** A unit carries the section it was resolved in, a field of that section, and never a partner or absorbed subcategory. */
  lemma {:induction false} NamesUnits(fields: Fields, merged: Option<string>, section: string, names: seq<string>)
    requires WellTyped(fields)
    ensures forall u | u in ResolveNames(fields, merged, section, names) ::
      u.section == section && u.field in names && u.field !in SkipFields
      && (u.field in MediaAbsorbed ==> u.field == "media_type")
    decreases |names|
  {
    if names != [] {
      FieldUnits(fields, merged, section, names[0]);
      NamesUnits(fields, merged, section, names[1..]);
    }
  }

  lemma {:induction false} SectionsUnits(fields: Fields, merged: Option<string>, sections: seq<Section>)
    requires WellTyped(fields)
    ensures forall u | u in ResolveSections(fields, merged, sections) ::
      (exists s | s in sections :: u.section == s.name && u.field in s.fields)
      && u.field !in SkipFields && (u.field in MediaAbsorbed ==> u.field == "media_type")
    decreases |sections|
  {
    if sections != [] {
      NamesUnits(fields, merged, sections[0].name, sections[0].fields);
      SectionsUnits(fields, merged, sections[1..]);
    }
  }

  /**
   * Merge partners, `custom_location` and the media subcategory fields never
   * produce a unit of their own; every unit comes from a field of the table,
   * under that field's section.
   */
  lemma PartnersNeverOwnUnit(fields: Fields, merged: Option<string>)
    requires WellTyped(fields)
    ensures forall u | u in ResolveAll(fields, merged) ::
      u.field !in SkipFields && (u.field in MediaAbsorbed ==> u.field == "media_type")
      && exists s | s in SectionOrder :: u.section == s.name && u.field in s.fields
  {
    SectionsUnits(fields, merged, SectionOrder);
  }

  /**
   * In any table that lists `media_type` once, as its very first field, the
   * composite is the first unit when it is emitted and no other unit carries
   * the `media_type` field.
   */
  lemma {:induction false} CompositeFirstInTable(fields: Fields, merged: Option<string>, table: seq<Section>)
    requires WellTyped(fields)
    requires table != [] && table[0].fields != [] && table[0].fields[0] == "media_type"
    requires "media_type" !in table[0].fields[1..]
    requires forall k | 1 <= k < |table| :: "media_type" !in table[k].fields
    ensures var units := ResolveSections(fields, merged, table);
      Emits(merged) ==> units != [] && units[0] == Resolved(merged.value, table[0].name, "media_type")
    ensures var units := ResolveSections(fields, merged, table);
      forall i | 0 <= i < |units| && units[i].field == "media_type" :: i == 0 && Emits(merged)
  {
    var head := table[0];
    var first := ResolveField(fields, merged, head.name, "media_type");
    var styleRest := ResolveNames(fields, merged, head.name, head.fields[1..]);
    var later := ResolveSections(fields, merged, table[1..]);
    var units := ResolveSections(fields, merged, table);
    assert units == first + styleRest + later;
    assert "media_type" in MediaAbsorbed;
    assert first == if Emits(merged) then [Resolved(merged.value, head.name, "media_type")] else [];
    NamesUnits(fields, merged, head.name, head.fields[1..]);
    SectionsUnits(fields, merged, table[1..]);
    forall u | u in later ensures u.field != "media_type" {
      var s :| s in table[1..] && u.section == s.name && u.field in s.fields;
      var k :| 0 <= k < |table[1..]| && table[1..][k] == s;
      assert s == table[k + 1];
    }
    assert forall i | |first| <= i < |units| :: units[i] in styleRest + later;
  }

  /**
   * The media composite is emitted at most once: as the very first unit when
   * it is non-empty, and no other unit ever carries the `media_type` field.
   */
  lemma MediaCompositeOnlyFirst(fields: Fields, merged: Option<string>)
    requires WellTyped(fields)
    ensures var units := ResolveAll(fields, merged);
      Emits(merged) ==> units != [] && units[0] == Resolved(merged.value, "STYLE", "media_type")
    ensures var units := ResolveAll(fields, merged);
      forall i | 0 <= i < |units| && units[i].field == "media_type" :: i == 0 && Emits(merged)
  {
    MediaTypeListedOnce();
    CompositeFirstInTable(fields, merged, SectionOrder);
    assert ResolveAll(fields, merged) == ResolveSections(fields, merged, SectionOrder);
  }

  // ---------------------------------------------------------------- absent fields

  lemma FieldAbsent(fields: Fields, merged: Option<string>, section: string, name: string)
    requires WellTyped(fields) && !Emits(merged)
    requires forall n | n != "custom_location" :: !Present(fields, n)
    ensures ResolveField(fields, merged, section, name) == []
  {
    if name !in MediaAbsorbed && name !in SkipFields && name in MergeRuleTable {
      PartnerSkipped(name);
      assert !Present(fields, name) && !Present(fields, MergeRuleTable[name].mergeWith);
    }
  }

  lemma {:induction false} SectionsAbsent(fields: Fields, merged: Option<string>, sections: seq<Section>)
    requires WellTyped(fields) && !Emits(merged)
    requires forall n | n != "custom_location" :: !Present(fields, n)
    ensures ResolveSections(fields, merged, sections) == []
    decreases |sections|
  {
    if sections != [] {
      NamesAbsent(fields, merged, sections[0].name, sections[0].fields);
      SectionsAbsent(fields, merged, sections[1..]);
    }
  }

  lemma {:induction false} NamesAbsent(fields: Fields, merged: Option<string>, section: string, names: seq<string>)
    requires WellTyped(fields) && !Emits(merged)
    requires forall n | n != "custom_location" :: !Present(fields, n)
    ensures ResolveNames(fields, merged, section, names) == []
    decreases |names|
  {
    if names != [] {
      FieldAbsent(fields, merged, section, names[0]);
      NamesAbsent(fields, merged, section, names[1..]);
    }
  }

  /**
   * With no truthy field other than `custom_location`, nothing resolves: in
   * particular `custom_location` on its own vanishes, since only the setting
   * rule reads it and that rule fires on `setting` or `location_type` alone.
   */
  lemma NothingPresentNothingResolved(fields: Fields)
    requires WellTyped(fields)
    requires forall n | n != "custom_location" :: !Present(fields, n)
    ensures MediaTypeMerged(fields) == None
    ensures ResolveAll(fields, MediaTypeMerged(fields)) == []
  {
    assert !Present(fields, "media_type");
    SectionsAbsent(fields, None, SectionOrder);
  }

  /**
   * A rule's primary field, once it or its partner is truthy, resolves to the
   * rule's combinator applied to the primary's text and then the partner's.
   */
  lemma RuleFieldText(fields: Fields, merged: Option<string>, section: string, name: string)
    requires WellTyped(fields) && name in MergeRuleTable
    ensures MergeRuleTable[name].mergeWith in MergeInputs
    ensures var partner := MergeRuleTable[name].mergeWith;
      Present(fields, name) || Present(fields, partner) ==>
        ResolveField(fields, merged, section, name)
          == [Resolved(Apply(MergeRuleTable[name].fn, MergeInput(fields, name), MergeInput(fields, partner),
                MergeInput(fields, "custom_location")), section, name)]
    ensures var partner := MergeRuleTable[name].mergeWith;
      !Present(fields, name) && !Present(fields, partner) ==> ResolveField(fields, merged, section, name) == []
  {
    PartnerSkipped(name);
    PrimariesNotSkipped();
    assert name !in MediaAbsorbed;
  }

  /** A field no rule reads and no media type absorbs resolves to its own text once truthy. */
  lemma PlainFieldText(fields: Fields, merged: Option<string>, section: string, name: string)
    requires WellTyped(fields)
    requires name !in MediaAbsorbed && name !in MergeInputs
    ensures Present(fields, name) ==>
      ResolveField(fields, merged, section, name) == [Resolved(PlainText(name, fields[name]), section, name)]
    ensures !Present(fields, name) ==> ResolveField(fields, merged, section, name) == []
  {
    assert name !in SkipFields && name !in MergeRuleTable;
  }

  /** No field is truthy except possibly `shot_type`, `movement` and `custom_location`. */
  ghost predicate OnlyShotSet(fields: Fields) {
    forall n | n != "shot_type" && n != "movement" && n != "custom_location" :: !Present(fields, n)
  }

  /** With only the shot fields set, no other rule has a truthy input. */
  lemma RuleAbsentButShot(fields: Fields, name: string)
    requires OnlyShotSet(fields) && name in MergeRuleTable && name != "shot_type"
    ensures !Present(fields, name) && !Present(fields, MergeRuleTable[name].mergeWith)
  {
    PartnerSkipped(name);
    PrimariesNotSkipped();
    MovementPartnersOnlyShot();
    CustomLocationNoPartner();
    assert "shot_type" !in SkipFields;
  }

  lemma FieldAbsentButShot(fields: Fields, section: string, name: string)
    requires WellTyped(fields) && OnlyShotSet(fields) && name != "shot_type"
    ensures ResolveField(fields, None, section, name) == []
  {
    if name in MergeRuleTable {
      RuleAbsentButShot(fields, name);
      RuleFieldText(fields, None, section, name);
    } else if name !in MediaAbsorbed && name !in SkipFields {
      assert "movement" in SkipFields && "custom_location" in SkipFields;
      PlainFieldText(fields, None, section, name);
    }
  }

  lemma {:induction false} NamesAbsentButShot(fields: Fields, section: string, names: seq<string>)
    requires WellTyped(fields) && OnlyShotSet(fields) && "shot_type" !in names
    ensures ResolveNames(fields, None, section, names) == []
    decreases |names|
  {
    if names != [] {
      FieldAbsentButShot(fields, section, names[0]);
      NamesAbsentButShot(fields, section, names[1..]);
    }
  }

  /** With only the shot fields set, a table resolves to what its one section holding `shot_type` resolves to. */
  lemma {:induction false} SectionsOnlyAt(fields: Fields, sections: seq<Section>, idx: nat)
    requires WellTyped(fields) && OnlyShotSet(fields) && idx < |sections|
    requires forall k | 0 <= k < |sections| && k != idx :: "shot_type" !in sections[k].fields
    ensures ResolveSections(fields, None, sections) == ResolveNames(fields, None, sections[idx].name, sections[idx].fields)
    decreases |sections|
  {
    if idx == 0 {
      SectionsWithoutShot(fields, sections[1..]);
    } else {
      NamesAbsentButShot(fields, sections[0].name, sections[0].fields);
      SectionsOnlyAt(fields, sections[1..], idx - 1);
    }
  }

  lemma {:induction false} SectionsWithoutShot(fields: Fields, sections: seq<Section>)
    requires WellTyped(fields) && OnlyShotSet(fields)
    requires forall k | 0 <= k < |sections| :: "shot_type" !in sections[k].fields
    ensures ResolveSections(fields, None, sections) == []
    decreases |sections|
  {
    if sections != [] {
      NamesAbsentButShot(fields, sections[0].name, sections[0].fields);
      SectionsWithoutShot(fields, sections[1..]);
    }
  }

  /**
   * A state whose only truthy fields are `shot_type` and its partner
   * `movement` resolves to exactly one unit: the shot rule's fragment, with
   * the shot first and the movement second, under CINEMATOGRAPHY.
   */
  lemma ShotAndMovementAlone(fields: Fields)
    requires WellTyped(fields) && OnlyShotSet(fields)
    requires Present(fields, "shot_type") || Present(fields, "movement")
    ensures MediaTypeMerged(fields) == None
    ensures ResolveAll(fields, MediaTypeMerged(fields)) ==
      [Resolved(ShotFragment(MergeInput(fields, "shot_type"), MergeInput(fields, "movement")), "CINEMATOGRAPHY", "shot_type")]
  {
    assert !Present(fields, "media_type");
    ShotTypeListedOnce();
    SectionsOnlyAt(fields, SectionOrder, 4);
    CinematographyOnlyShot(fields);
    MovementPartnersOnlyShot();
    RuleFieldText(fields, None, "CINEMATOGRAPHY", "shot_type");
  }

  /** With only the shot fields set, CINEMATOGRAPHY resolves to what `shot_type` resolves to. */
  lemma CinematographyOnlyShot(fields: Fields)
    requires WellTyped(fields) && OnlyShotSet(fields)
    ensures ResolveNames(fields, None, SectionOrder[4].name, SectionOrder[4].fields)
      == ResolveField(fields, None, "CINEMATOGRAPHY", "shot_type")
  {
    ShotTypeListedOnce();
    var cine := SectionOrder[4];
    NamesAbsentButShot(fields, cine.name, cine.fields[1..]);
    NamesStep(fields, None, cine.name, cine.fields, 0);
    assert cine.fields[0..] == cine.fields && cine.fields[1..] == cine.fields[0 + 1..];
  }

  /** An empty list is truthy: a plain field holding `[]` resolves to a unit with empty text. */
  lemma EmptyListUnit(fields: Fields, merged: Option<string>, section: string, name: string)
    requires WellTyped(fields)
    requires name !in MediaAbsorbed && name !in SkipFields && name !in MergeRuleTable
    requires name in fields && fields[name] == List([])
    ensures ResolveField(fields, merged, section, name) == [Resolved("", section, name)]
  {
  }

  /** `media_type` set to `[]` gives the empty composite, which is falsy and never emitted. */
  lemma EmptyMediaListNotEmitted(fields: Fields)
    requires "media_type" in fields && fields["media_type"] == List([])
    ensures MediaTypeMerged(fields) == Some("")
    ensures !Emits(MediaTypeMerged(fields))
  {
    assert MediaParts(fields, []) == [];
  }

  /**
   * `custom_location` is read only by the `setting` rule, which fires only on
   * `setting` or `location_type`: without those two it contributes nothing.
   */
  lemma CustomLocationAloneVanishes(fields: Fields, merged: Option<string>, section: string)
    requires WellTyped(fields)
    requires !Present(fields, "setting") && !Present(fields, "location_type")
    ensures ResolveField(fields, merged, section, "setting") == []
    ensures ResolveField(fields, merged, section, "custom_location") == []
  {
    assert "setting" !in MediaAbsorbed && "setting" !in SkipFields;
    assert MergeRuleTable["setting"].mergeWith == "location_type";
    assert "custom_location" in SkipFields;
  }

  // ---------------------------------------------------------------- unknown keys

  lemma FieldIgnoresKey(fields: Fields, merged: Option<string>, section: string, name: string, k: string, v: Val)
    requires WellTyped(fields) && WellTyped(fields[k := v])
    requires k != name && k !in MergeInputs
    ensures ResolveField(fields[k := v], merged, section, name) == ResolveField(fields, merged, section, name)
  {
    var updated := fields[k := v];
    assert forall n | n != k :: Present(updated, n) == Present(fields, n);
    if name !in MediaAbsorbed && name !in SkipFields && name in MergeRuleTable {
      PartnerSkipped(name);
      var partner := MergeRuleTable[name].mergeWith;
      assert MergeInput(updated, name) == MergeInput(fields, name);
      assert MergeInput(updated, partner) == MergeInput(fields, partner);
      assert MergeInput(updated, "custom_location") == MergeInput(fields, "custom_location");
    }
  }

  lemma {:induction false} NamesIgnoreKey(fields: Fields, merged: Option<string>, section: string, names: seq<string>, k: string, v: Val)
    requires WellTyped(fields) && WellTyped(fields[k := v])
    requires k !in names && k !in MergeInputs
    ensures ResolveNames(fields[k := v], merged, section, names) == ResolveNames(fields, merged, section, names)
    decreases |names|
  {
    if names != [] {
      FieldIgnoresKey(fields, merged, section, names[0], k, v);
      NamesIgnoreKey(fields, merged, section, names[1..], k, v);
    }
  }

  lemma {:induction false} SectionsIgnoreKey(fields: Fields, merged: Option<string>, sections: seq<Section>, k: string, v: Val)
    requires WellTyped(fields) && WellTyped(fields[k := v])
    requires forall s | s in sections :: k !in s.fields
    requires k !in MergeInputs
    ensures ResolveSections(fields[k := v], merged, sections) == ResolveSections(fields, merged, sections)
    decreases |sections|
  {
    if sections != [] {
      NamesIgnoreKey(fields, merged, sections[0].name, sections[0].fields, k, v);
      SectionsIgnoreKey(fields, merged, sections[1..], k, v);
    }
  }

  /** The media composite reads only `media_type` and the subcategory fields. */
  lemma MediaIgnoresKey(fields: Fields, k: string, v: Val)
    requires k !in MediaAbsorbed
    ensures MediaTypeMerged(fields[k := v]) == MediaTypeMerged(fields)
  {
    var updated := fields[k := v];
    if Present(fields, "media_type") {
      var types := MediaTypes(fields);
      assert MediaTypes(updated) == types;
      forall i | 0 <= i < |types| ensures MediaPart(updated, types[i]) == MediaPart(fields, types[i]) {
        var mt := types[i];
        if mt in MediaSubcatFields {
          SubcatAbsorbed(mt);
        }
      }
      assert MediaParts(updated, types) == MediaParts(fields, types);
    }
  }

  /** Setting a key the composer never reads changes neither the composite nor any unit. */
  lemma UnknownKeyIgnored(fields: Fields, k: string, v: Val)
    requires WellTyped(fields) && !IsRead(k)
    ensures WellTyped(fields[k := v])
    ensures MediaTypeMerged(fields[k := v]) == MediaTypeMerged(fields)
    ensures ResolveAll(fields[k := v], MediaTypeMerged(fields)) == ResolveAll(fields, MediaTypeMerged(fields))
  {
    MediaIgnoresKey(fields, k, v);
    forall s | s in SectionOrder ensures k !in s.fields {
      var i :| 0 <= i < |SectionOrder| && SectionOrder[i] == s;
    }
    SectionsIgnoreKey(fields, MediaTypeMerged(fields), SectionOrder, k, v);
  }

  /**
   * `dialogue` is in no section, no merge rule and not absorbed by the media
   * type, so the dialogue branch of the resolver is never reached.
   */
  lemma DialogueNeverRead()
    ensures !IsRead("dialogue")
  {
    DialogueNotInTable();
    DialogueNotMergeInput();
    assert "dialogue" !in MediaAbsorbed;
  }
}
