# cineprompt prompt composer, modelled in Dafny

This project models the prompt composer of cineprompt (`buildPromptText` in
`lib/prompt-builder.js`). The composer turns a state's `fields` map into one
paragraph of prose. Each field holds a string or a list of strings. The
composer works in four passes:

1. **Media-type composite.** Each selected media type pulls in its
   subcategory field. The parts are joined with single spaces.
2. **Ordered resolution.** The section table is walked in order. Fourteen
   merge rules combine a primary field with its partner. Partners,
   `custom_location` and the absorbed media fields produce no unit of
   their own.
3. **Grouping.** Runs of SUBJECT units become one sentence, and so do runs
   of camera-gear units. This is done with two pending buffers.
4. **Formatting.** Each sentence is capitalised. A "." is added unless it
   already ends in ".", "!" or '"'. The sentences are joined with single
   spaces.

Modules, one per file:

- `Strings` (strings.dfy): the JavaScript string operations the composer
  uses: `startsWith`, `endsWith`, `includes`, `split(sep)[0]`, `trim`,
  removal of a literal suffix, `join` and first-letter upper-casing.
- `Values` (values.dfy): field values, JavaScript truthiness and `nlJoin`.
- `Schema` (schema.dfy): `SECTION_ORDER`, `MEDIA_SUBCAT_FIELDS`,
  `MEDIA_ABSORBED` and the gear group.
- `MergeRules` (merge_rules.dfy): the rule table of `buildMergeRules` and
  one function per combinator. The `camera_body` rule's brand loop is a
  method.
- `Resolution` (resolution.dfy): the media composite, and the nested walk
  over the section table, as methods proved equal to recursive
  specification functions.
- `Assembly` (assembly.dfy): the grouping loop.
  - `Assembler` is a class with the `segments`, `subjectBuf` and `gearBuf`
    fields. Its `FlushSubject` and `FlushGear` methods are the two flush
    closures.
  - It is specified as the rendering of the maximal runs of units by kind.
  - Also in this module: segment formatting.
- `PromptBuilder` (prompt_builder.dfy): `buildPromptText` itself.

JavaScript truthiness is followed exactly:
- A missing key and `""` are falsy, and every list is truthy, even `[]`.
- A plain field holding `[]` therefore resolves to a unit with empty text.
  As a segment of its own it formats to ".". Inside a SUBJECT run or a
  camera-gear run it adds only its separator: `char_label` "man" with
  `build` `[]` gives the sentence "Man, .".
- A `media_type` of `[]` gives the composite `""`, which is falsy and is
  never emitted.

A `dialogue` field has a branch of its own in the resolution loop
(lines 166-169), which renders it as `Dialogue: "…"`. No section of
`SECTION_ORDER` lists `dialogue`, so the loop never reaches that branch, and
a `dialogue` key is ignored like any other unknown key. `PlainText` keeps
the branch, and `DialogueNeverRead` and `DialogueKeepsPrompt` prove that it
is dead.

## Model

| member | source | states |
|---|---|---|
| Values.NlJoin | lib/prompt-builder.js:8-12 | `nlJoin` of no items is "", and of one item is that item |
| Values.Present | lib/prompt-builder.js:164 | JavaScript truthiness of a field: true exactly when the key is there and its value is not ""; every list, even `[]`, is truthy |
| Values.NlJoinValue | lib/prompt-builder.js:9 | a string is returned unchanged; a list is `nlJoin`ed |
| Values.NlJoinMatchesReference | lib/prompt-builder.js:11 | for two or more items, `nlJoin` equals the item-by-item reading: "a and b", or "a, " then the join of the rest |
| Values.NlJoinEndsWithLast | lib/prompt-builder.js:11 | for two or more items the result ends with " and " and the last item |
| Values.NlJoinExamples | lib/prompt-builder.js:7-12 | `[]` gives "", `["a"]` gives "a", `["a","b"]` gives "a and b", and `["a","b","c"]` gives "a, b and c" |
| Strings.Before | lib/prompt-builder.js:64 | `split(sep)[0]`: a prefix of the input with no occurrence of `sep` before its end, ending at the first occurrence or at the end of the input |
| Strings.TrimStart | lib/prompt-builder.js:102 | a suffix of the input whose removed characters are all white space, and which does not start with white space |
| Strings.TrimEnd | lib/prompt-builder.js:102 | a prefix of the input whose removed characters are all white space, and which does not end with white space |
| Strings.Trim | lib/prompt-builder.js:97 | a substring of the input that neither starts nor ends with white space |
| Strings.TrimRemovesOnlySpace | lib/prompt-builder.js:102 | the trimmed text sits in the input after a prefix of white space and before a suffix of white space |
| Strings.StripSuffix | lib/prompt-builder.js:47 | `replace(/ lens$/, '')` and the like: when the suffix is there, the result plus the suffix is the input; otherwise the input is unchanged |
| Strings.Contains | lib/prompt-builder.js:67 | `includes`: a contained text is no longer than the text holding it, and a prefix is contained |
| Strings.Join | lib/prompt-builder.js:186 | `join`: a one-item list joins to that item, and the joined text of a non-empty list starts with its first item |
| Strings.JoinAppend | lib/prompt-builder.js:186 | `join` of two non-empty lists, one after the other, is the join of the first, the separator, and the join of the second |
| Strings.JoinEndsWithLast | lib/prompt-builder.js:199 | `join`: the joined text of a non-empty list ends with its last item |
| Strings.UpperAscii | lib/prompt-builder.js:196 | a lower-case ASCII letter maps to its upper-case letter; any other character is unchanged |
| Strings.Capitalise | lib/prompt-builder.js:196 | same length; the first character is upper-cased and the rest is unchanged |
| Strings.CapitaliseKeepsEnding | lib/prompt-builder.js:196-197 | capitalising never changes whether a text ends with a given character that is not a letter, so the "." test may be made before or after it |
| Schema.SubcatAbsorbed | lib/prompt-builder.js:26-30 | every subcategory field in `MEDIA_SUBCAT_FIELDS` is in `MEDIA_ABSORBED` and is not `media_type` |
| Schema.MediaTypeAndDialogueOnlyInStyle | lib/prompt-builder.js:17-22 | no section after STYLE lists `media_type` or `dialogue` |
| Schema.StyleStartsWithMediaType | lib/prompt-builder.js:16 | the first section is STYLE; its first field is `media_type`, no later field is `media_type`, and no field is `dialogue` |
| Schema.MediaTypeListedOnce | lib/prompt-builder.js:15-23 | `media_type` appears exactly once in the table, as the first field of STYLE |
| Schema.DialogueNotInTable | lib/prompt-builder.js:15-23 | no section lists `dialogue` |
| Schema.ShotTypeListedOnce | lib/prompt-builder.js:15-23 | `shot_type` appears exactly once in the table, as the first field of CINEMATOGRAPHY (the fifth section) |
| MergeRules.PartnerSkipped | lib/prompt-builder.js:115-119 | every rule's partner is a skipped field |
| MergeRules.SkipFieldsArePartners | lib/prompt-builder.js:115-119 | the skipped fields are exactly the rules' partners plus `custom_location` |
| MergeRules.PrimariesNotSkipped | lib/prompt-builder.js:115-156 | no rule's primary field is a skipped field, so the skip test never hides a rule |
| MergeRules.MovementPartnersOnlyShot | lib/prompt-builder.js:33-39 | `shot_type` is merged with `movement` by the shot combinator, and no other rule takes `movement` as its partner |
| MergeRules.CustomLocationNoPartner | lib/prompt-builder.js:40-45 | `custom_location` is the partner of no rule; it is read only as the third input of the setting rule |
| MergeRules.DialogueNotMergeInput | lib/prompt-builder.js:33-109 | no rule has `dialogue` as primary or partner |
| MergeRules.Or | lib/prompt-builder.js:48 | JavaScript `or` on two strings: `a` when it is non-empty, else `b` |
| MergeRules.ShotFragment | lib/prompt-builder.js:35-39 | the four outcomes: "{shot}, locked-off static camera"; "{shot} with {movement} camera movement"; movement only gives "locked-off static camera" or "{movement} camera movement"; shot only gives the shot; empty only when both inputs are |
| MergeRules.ShotFragmentShape | lib/prompt-builder.js:35-39 | the result is non-empty exactly when an input is set; it starts with the shot and ends with the camera phrase of the movement |
| MergeRules.SettingFragment | lib/prompt-builder.js:40-45 | every combination of the three inputs: the non-empty ones among setting, location type and `custom_location`, in that order, joined by ", "; "" when all three are empty |
| MergeRules.FocalFragment | lib/prompt-builder.js:46-49 | with both inputs, the result ends with " " and the brand, and before that is the focal length without a trailing " lens"; with one input, that input |
| MergeRules.LightingFragment | lib/prompt-builder.js:50-53 | with both inputs, the style with a trailing " light" and then a trailing " lighting" removed, a space, and the type; with one input, that input |
| MergeRules.CommaFragment | lib/prompt-builder.js:54-61 | `env_time`, `key_light`, `film_stock`, `expression` and `creature_category`: with both set, exactly "{a}, {b}"; otherwise the one that is set |
| MergeRules.HairFragment | lib/prompt-builder.js:80-83 | with both inputs, the style and the colour, each without a trailing " hair", then " hair"; with one input, that input |
| MergeRules.LabelFragment | lib/prompt-builder.js:88-91 | with both inputs, "{label} {age}" when the age starts with "in their", and "{label}, {age}" otherwise; with one input, that input |
| MergeRules.GenreFragment | lib/prompt-builder.js:96-99 | with both inputs, the mood's first comma-separated clause trimmed, a space and the genre, with no comma before " {genre}"; with one input, that input |
| MergeRules.MoodThenGenre | lib/prompt-builder.js:97 | the mood's first comma-separated clause, trimmed, a space and the genre; no comma comes before " {genre}" |
| MergeRules.NoCommaInClause | lib/prompt-builder.js:97 | the trimmed first clause of `split(',')` holds no comma |
| MergeRules.Quoted | lib/prompt-builder.js:103 | the result opens with a straight or curly quote; text that already opens with one is unchanged, and any other text is wrapped in '"' |
| MergeRules.QuotedOnce | lib/prompt-builder.js:103 | quoting twice is the same as quoting once |
| MergeRules.SoundFragment | lib/prompt-builder.js:100-107 | with both inputs, "{mode}: " then the trimmed voice-over, quoted once; with one input, that input |
| MergeRules.StripFirstBrand | lib/prompt-builder.js:65-71 | the first brand in list order that the camera contains and that prefixes the profile with a space is removed with its space; with no such brand the profile is unchanged |
| MergeRules.StripBrandPrefix | lib/prompt-builder.js:64-71 | the loop with `break` over the brand list computes `StripFirstBrand` |
| MergeRules.ProfileName | lib/prompt-builder.js:64-71 | the profile is an ending of the text before " flat log" and then before " flat ", and it contains neither " flat " nor " flat log" |
| MergeRules.CameraFragment | lib/prompt-builder.js:62-75 | with both inputs, exactly "{camera} in {profile}, flat log footage, ungraded", the profile being the colour science cut at " flat log" and " flat " with the first matching brand removed; with one input, that input |
| MergeRules.FiredRuleYieldsText | lib/prompt-builder.js:33-109 | a rule with at least one input set never yields ""; every rule except `shot_type` and `setting` returns the set side unchanged when the other is unset |
| MergeRules.Apply | lib/prompt-builder.js:33-109 | a rule with an input set yields non-empty text, and every rule except `setting` yields "" when neither input is set |
| MergeRules.RunRule | lib/prompt-builder.js:160 | running a rule's `fn`, with the brand loop executed step by step, gives the rule's combinator result |
| Resolution.MergeInput | lib/prompt-builder.js:158 | a rule's input is the field's string, or "" when the field is missing; it is non-empty exactly when the field is truthy |
| Resolution.MediaPart | lib/prompt-builder.js:127-140 | a type without a truthy subcategory value renders as the type word; `cinematic` with genres is "cinematic " and the genres `nlJoin`ed; any other type renders as its subcategory value, `nlJoin`ed |
| Resolution.MediaParts | lib/prompt-builder.js:126-141 | one part per selected type, in order |
| Resolution.MediaTypeMerged | lib/prompt-builder.js:122-143 | there is a composite exactly when `media_type` is truthy; a string type gives the part of that type; a list of types gives the parts of its types, in order, joined by single spaces |
| Resolution.TwoTypeComposite | lib/prompt-builder.js:142 | two selected types give exactly the first part, one space, and the second part |
| Resolution.MediaComposite | lib/prompt-builder.js:121-143 | the push loop over the selected types gives `MediaTypeMerged`: no composite when `media_type` is falsy, otherwise the parts joined by single spaces |
| Resolution.CinematicComposite | lib/prompt-builder.js:130-132 | a lone `cinematic` selection with genres gives "cinematic " and the genres `nlJoin`ed |
| Resolution.BareMediaType | lib/prompt-builder.js:138-140 | a media type with no subcategory value renders as itself |
| Resolution.EmptyMediaListNotEmitted | lib/prompt-builder.js:142-150 | a `media_type` of `[]` gives the composite "", which is not emitted |
| Resolution.ResolveValues | lib/prompt-builder.js:146-177 | the walk over the sections produces the units of every section, in table order |
| Resolution.ResolveSection | lib/prompt-builder.js:148-176 | the walk over one section's fields produces that section's units, in field order |
| Resolution.ResolveOne | lib/prompt-builder.js:149-175 | the loop body for one field: the media composite at `media_type`; nothing for absorbed or skipped fields; a fired rule's fragment; otherwise the truthy value, `nlJoin`ed |
| Resolution.PlainText | lib/prompt-builder.js:164-174 | a field other than `dialogue`, or a list, gives its value `nlJoin`ed, a string unchanged; a `dialogue` string `v` gives exactly "Dialogue: " followed by `v` quoted: unchanged when it already opens with a straight or curly quote, otherwise between double quotes |
| Resolution.ResolveField | lib/prompt-builder.js:149-175 | one field yields at most one unit, tagged with its own section and field |
| Resolution.ResolveAll | lib/prompt-builder.js:146-177 | no unit comes from a skipped field or from an absorbed field other than `media_type` |
| Resolution.RuleFieldText | lib/prompt-builder.js:156-162 | a rule's primary field with it or its partner truthy yields exactly one unit, under its own section and field, whose text is the rule's combinator applied to the primary's string, the partner's string and `custom_location`, in that order; with neither truthy it yields nothing |
| Resolution.PlainFieldText | lib/prompt-builder.js:164-174 | a field that is neither absorbed nor a merge input yields, when truthy, exactly one unit whose text is `PlainText` of its value, and nothing when falsy |
| Resolution.ShotAndMovementAlone | lib/prompt-builder.js:146-177 | when only `shot_type`, `movement` or `custom_location` are set and one of the first two is truthy, there is no composite and the only unit is the shot fragment of (shot, movement), under CINEMATOGRAPHY and `shot_type` |
| Resolution.FieldUnits | lib/prompt-builder.js:149-175 | a field that yields a unit is not a skipped field, and is not an absorbed field other than `media_type` |
| Resolution.PartnersNeverOwnUnit | lib/prompt-builder.js:115-155 | no unit comes from a partner, `custom_location` or an absorbed subcategory field; every unit carries a table field under that field's section |
| Resolution.CompositeFirstInTable | lib/prompt-builder.js:149-153 | in a table that lists `media_type` once and first, the emitted composite is the first unit, and no other unit carries `media_type` |
| Resolution.MediaCompositeOnlyFirst | lib/prompt-builder.js:149-153 | the composite is emitted at most once, as the very first unit (STYLE, `media_type`), and only when it is non-empty |
| Resolution.EmptyListUnit | lib/prompt-builder.js:164-171 | a plain field holding `[]` is truthy and resolves to a unit with empty text |
| Resolution.CustomLocationAloneVanishes | lib/prompt-builder.js:40-45 | without `setting` and `location_type`, neither the setting rule nor `custom_location` yields a unit |
| Resolution.NothingPresentNothingResolved | lib/prompt-builder.js:123-175 | with no truthy field except possibly `custom_location`, there is no composite and no unit |
| Resolution.MediaIgnoresKey | lib/prompt-builder.js:123-143 | the composite reads only `media_type` and the absorbed subcategory fields |
| Resolution.UnknownKeyIgnored | lib/prompt-builder.js:121-177 | setting a key the composer never reads changes neither the composite nor any unit |
| Resolution.DialogueNeverRead | lib/prompt-builder.js:166-169 | `dialogue` is in no section, no merge rule and not absorbed, so the dialogue branch is never reached |
| Assembly.KindOf | lib/prompt-builder.js:189-191 | a unit is of the subject kind exactly when its section is SUBJECT, and of the gear kind exactly when it is a CINEMATOGRAPHY gear field |
| Assembly.Runs | lib/prompt-builder.js:188-193 | the maximal runs: each run is non-empty and of one kind, and each unit of any other kind is a run of its own |
| Assembly.RunsPartition | lib/prompt-builder.js:188-193 | the runs, concatenated, are the units in input order: each unit's text ends up in exactly one segment |
| Assembly.RunsMaximal | lib/prompt-builder.js:189-191 | two neighbouring runs never share a buffered kind |
| Assembly.SubjectSentenceBounds | lib/prompt-builder.js:185 | a subject sentence starts with the first unit's text and ends with the last's |
| Assembly.SubjectSentenceAppend | lib/prompt-builder.js:185 | appending a unit adds "; " for `framing`, ", " otherwise, and then its text |
| Assembly.SubjectSentence | lib/prompt-builder.js:185 | a one-unit sentence is that unit's text, and a sentence is never shorter than its first text |
| Assembly.Texts | lib/prompt-builder.js:186 | the texts of the units, in order |
| Assembly.Render | lib/prompt-builder.js:185-191 | a SUBJECT run renders as its subject sentence, a gear run as its texts joined by ", ", and any other unit as its own text |
| Assembly.RenderAll | lib/prompt-builder.js:182-193 | one rendered segment per run, in order |
| Assembly.Segments | lib/prompt-builder.js:182-193 | one segment per maximal run, the j-th segment being the rendering of the j-th run |
| Assembly.SegmentsEmpty | lib/prompt-builder.js:182-193 | no segments exactly when there are no units |
| Assembly.OtherUnitAlone | lib/prompt-builder.js:191 | a lone unit outside SUBJECT and the camera gear is a segment of its own, with its text unchanged |
| Assembly.StepOf | lib/prompt-builder.js:188-191 | segments are only appended to; a SUBJECT unit ends the subject buffer and leaves the gear buffer empty; a gear unit the reverse; any other unit empties both buffers and becomes the last segment; well-grouped buffers stay well-grouped |
| Assembly.FlushMatchesRuns | lib/prompt-builder.js:185-186 | flushing a full buffer emits the segment of its run and empties both buffers |
| Assembly.SubjectStepMatchesRuns | lib/prompt-builder.js:189 | a SUBJECT unit flushes the gear buffer and is buffered; the segments still to come are unchanged |
| Assembly.GearStepMatchesRuns | lib/prompt-builder.js:190 | a gear unit flushes the subject buffer and is buffered; the segments still to come are unchanged |
| Assembly.OtherStepMatchesRuns | lib/prompt-builder.js:191 | any other unit flushes both buffers and becomes its own segment |
| Assembly.StepAllMatchesRuns | lib/prompt-builder.js:188-193 | the loop and the final flushes emit exactly the rendered maximal runs |
| Assembly.Assembler.constructor | lib/prompt-builder.js:183-184 | no segments and both buffers empty |
| Assembly.Assembler.FlushSubject | lib/prompt-builder.js:185 | a non-empty subject buffer becomes one segment and is emptied; an empty one emits nothing |
| Assembly.Assembler.FlushGear | lib/prompt-builder.js:186 | a non-empty gear buffer is joined with ", " into one segment and emptied; an empty one emits nothing |
| Assembly.Assembler.Push | lib/prompt-builder.js:189-191 | one turn of the grouping loop for one unit |
| Assembly.Assemble | lib/prompt-builder.js:182-193 | the buffered loop produces the segments of the maximal runs |
| Assembly.FormatSegment | lib/prompt-builder.js:195-198 | the first character is upper-cased; a segment not ending in ".", "!" or '"' becomes exactly its capitalised form plus "."; the result always ends in one of those |
| Assembly.FormatSegmentIdempotent | lib/prompt-builder.js:195-198 | formatting a formatted segment changes nothing |
| Assembly.FormatSegmentKeepsEnding | lib/prompt-builder.js:197 | a segment that already ends in ".", "!" or '"' is only capitalised |
| Assembly.FormatEmptySegment | lib/prompt-builder.js:196-197 | an empty segment becomes "." |
| Assembly.FormatAll | lib/prompt-builder.js:195-199 | each segment is formatted, in order |
| Assembly.FormatPrompt | lib/prompt-builder.js:195-199 | the prompt starts with the first formatted segment, is exactly that sentence for one segment, and ends in ".", "!" or '"' when there is a segment |
| Assembly.FormatPromptEmpty | lib/prompt-builder.js:195-199 | the joined prompt is empty exactly when there are no segments |
| Assembly.FormatPromptCons | lib/prompt-builder.js:199 | formatted segments are joined by exactly one space |
| PromptBuilder.FieldsOf | lib/prompt-builder.js:112 | the state's field map, or the empty map when it is missing |
| PromptBuilder.PromptText | lib/prompt-builder.js:111-200 | a non-empty prompt ends in ".", "!" or '"' |
| PromptBuilder.BuildPromptText | lib/prompt-builder.js:111-200 | the method computes `PromptText`: "" when no unit resolves, otherwise the formatted segments of the grouped units |
| PromptBuilder.PromptEmptyIffNothingResolved | lib/prompt-builder.js:179 | the prompt is empty exactly when no unit resolves, and the early return changes nothing |
| PromptBuilder.NothingSetEmptyPrompt | lib/prompt-builder.js:179 | with no truthy field except possibly `custom_location`, the prompt is "" |
| PromptBuilder.ShotAndMovementPrompt | lib/prompt-builder.js:111-200 | when only `shot_type` and `movement` (and possibly `custom_location`) are set, the prompt is exactly the formatted shot fragment of (shot, movement) |
| PromptBuilder.NoFieldsEmptyPrompt | lib/prompt-builder.js:179 | a missing or empty `fields` map gives "" |
| PromptBuilder.UnreadKeyKeepsPrompt | lib/prompt-builder.js:111-200 | a key the composer never reads does not change the prompt |
| PromptBuilder.DialogueKeepsPrompt | lib/prompt-builder.js:166-169 | setting `dialogue` never changes the prompt |

## Left out

- `bin/cineprompt.js` is not part of this model. It is the command-line
  front end: argument parsing, the configuration file, standard input,
  environment variables and console output.
- `lib/share.js` is not part of this model. It is one network request.
- List values as merge-rule inputs are excluded by `WellTyped`. The source
  calls string methods on them, which throws or coerces in JavaScript.
- The dialogue branch is never reached (see above), so a list value there
  is not modelled either.
- Strings.UpperAscii: upper-cases ASCII letters only. JavaScript's
  `toUpperCase` maps every Unicode letter, including letters that expand
  to several characters.
- The regular expressions ` lens$`, ` light$`, ` lighting$` and ` hair$`
  are modelled as removal of that literal suffix, which is what they match.
- Resolution.MediaPart: lookups that fall through to JavaScript's object
  prototype are not modelled. Line 127 looks a user-chosen media type up in
  `MEDIA_SUBCAT_FIELDS`. For a type named `constructor`, `toString` or
  `__proto__`, that lookup returns an inherited function or object, and
  line 128 then reads `fields` under its string form, for example
  `fields["[object Object]"]` for `__proto__`. The model gives such a type
  no subcategory and renders the bare word, so it differs only when
  `fields` holds that odd key. The lookups at lines 156, 158 and 164 use
  only the names in `SECTION_ORDER` and the rules' partner names, none of
  which is a prototype property.
- `buildMergeRules(fields)` is a closure over `fields`. The model uses a
  constant rule table, and passes the `setting` rule the value of
  `custom_location` as an extra argument.
- The field catalogue the command-line tool reads is not part of this
  model. The composer never consults it.
- Strings and lists are unbounded. JavaScript's string-length limit is not
  modelled.
