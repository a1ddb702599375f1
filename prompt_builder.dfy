/**
 * `buildPromptText`: the composer state's fields become one paragraph of
 * sentences, by resolving the values in section order and then grouping and
 * formatting them.
 */
module PromptBuilder {
  import opened Strings
  import opened Values
  import opened Schema
  import opened MergeRules
  import opened Resolution
  import opened Assembly

  /**
   * The part of the composer state the prompt reads. `state.fields` may be
   * missing, in which case no field is set.
   */
  datatype State = State(fields: Option<Fields>)

  /** `state.fields || {}` */
  function FieldsOf(state: State): (fields: Fields)
    ensures state.fields.Some? ==> fields == state.fields.value
    ensures state.fields.None? ==> fields == map[]
  {
    match state.fields
    case None => map[]
    case Some(f) => f
  }

  /**
   * The prompt: empty when nothing resolves, otherwise the formatted
   * segments of the resolved values.
   */
  function PromptText(state: State): (r: string)
    requires WellTyped(FieldsOf(state))
    ensures r != "" ==> EndsWith(r, ".") || EndsWith(r, "!") || EndsWith(r, "\"")
  {
    var fields := FieldsOf(state);
    var units := ResolveAll(fields, MediaTypeMerged(fields));
    if units == [] then "" else
      SegmentsEmpty(units);
      FormatPrompt(Segments(units))
  }

  /** lib/prompt-builder.js lines 111-199: media composite, resolution, early return, grouping, formatting. */
  method BuildPromptText(state: State) returns (text: string)
    requires WellTyped(FieldsOf(state))
    ensures text == PromptText(state)
  {
    var fields := match state.fields case None => map[] case Some(f) => f;
    var merged := MediaComposite(fields);
    var allValues := ResolveValues(fields, merged, SectionOrder);
    if |allValues| == 0 {
      return "";
    }
    var segments := Assemble(allValues);
    text := FormatPrompt(segments);
  }

  /** The prompt is empty exactly when no value resolves; the early return changes nothing. */
  lemma PromptEmptyIffNothingResolved(state: State)
    requires WellTyped(FieldsOf(state))
    ensures var fields := FieldsOf(state);
      PromptText(state) == "" <==> ResolveAll(fields, MediaTypeMerged(fields)) == []
    ensures var fields := FieldsOf(state);
      PromptText(state) == FormatPrompt(Segments(ResolveAll(fields, MediaTypeMerged(fields))))
  {
    var fields := FieldsOf(state);
    var units := ResolveAll(fields, MediaTypeMerged(fields));
    SegmentsEmpty(units);
    FormatPromptEmpty(Segments(units));
  }

  /**
   * With no field set, or only `custom_location` (which is read only by the
   * setting rule), the prompt is empty.
   */
  lemma NothingSetEmptyPrompt(state: State)
    requires WellTyped(FieldsOf(state))
    requires forall n | n != "custom_location" :: !Present(FieldsOf(state), n)
    ensures PromptText(state) == ""
  {
    NothingPresentNothingResolved(FieldsOf(state));
  }

  /**
   * With only `shot_type` and `movement` set (and perhaps `custom_location`),
   * the prompt is the single sentence of the shot rule, shot first.
   */
  lemma ShotAndMovementPrompt(fields: Fields)
    requires WellTyped(fields) && OnlyShotSet(fields)
    requires Present(fields, "shot_type") || Present(fields, "movement")
    ensures PromptText(State(Some(fields)))
      == FormatSegment(ShotFragment(MergeInput(fields, "shot_type"), MergeInput(fields, "movement")))
  {
    ShotAndMovementAlone(fields);
    var u := Resolved(ShotFragment(MergeInput(fields, "shot_type"), MergeInput(fields, "movement")),
      "CINEMATOGRAPHY", "shot_type");
    OtherUnitAlone(u);
  }

  /** A missing or empty field map gives the empty prompt. */
  lemma NoFieldsEmptyPrompt(state: State)
    requires state.fields.None? || state.fields == Some(map[])
    ensures WellTyped(FieldsOf(state))
    ensures PromptText(state) == ""
  {
    NothingSetEmptyPrompt(state);
  }

  /** A key the composer never reads, such as `dialogue`, does not change the prompt. */
  lemma UnreadKeyKeepsPrompt(fields: Fields, k: string, v: Val)
    requires WellTyped(fields) && !IsRead(k)
    ensures WellTyped(fields[k := v])
    ensures PromptText(State(Some(fields[k := v]))) == PromptText(State(Some(fields)))
  {
    UnknownKeyIgnored(fields, k, v);
  }

  /** Setting `dialogue` never changes the prompt. */
  lemma DialogueKeepsPrompt(fields: Fields, v: Val)
    requires WellTyped(fields)
    ensures WellTyped(fields["dialogue" := v])
    ensures PromptText(State(Some(fields["dialogue" := v]))) == PromptText(State(Some(fields)))
  {
    DialogueNeverRead();
    UnreadKeyKeepsPrompt(fields, "dialogue", v);
  }
}
