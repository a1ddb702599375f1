/**
 * `buildMergeRules`: pairs of fields that collapse into one phrase. A rule
 * names its partner field (`mergeWith`) and a combinator of the primary's and
 * the partner's text. Inputs are strings, and "" stands for an absent field
 * (both are falsy in the source).
 */
module MergeRules {
  import opened Strings

  datatype Combinator =
    | ShotWithMovement
    | SettingWithLocation
    | FocalWithLensBrand
    | LightingStyleWithType
    | CommaPair
    | CameraWithColorScience
    | HairStyleWithColor
    | LabelWithAge
    | GenreWithMood
    | SoundWithVoiceover

  datatype MergeRule = MergeRule(mergeWith: string, fn: Combinator)

  /** The rule table: primary field to its partner and combinator. */
  const MergeRuleTable: map<string, MergeRule> := map[
    "shot_type" := MergeRule("movement", ShotWithMovement),
    "setting" := MergeRule("location_type", SettingWithLocation),
    "focal_length" := MergeRule("lens_brand", FocalWithLensBrand),
    "lighting_style" := MergeRule("lighting_type", LightingStyleWithType),
    "env_time" := MergeRule("weather", CommaPair),
    "key_light" := MergeRule("fill_light", CommaPair),
    "camera_body" := MergeRule("color_science", CameraWithColorScience),
    "film_stock" := MergeRule("color_grade", CommaPair),
    "hair_style" := MergeRule("hair_color", HairStyleWithColor),
    "expression" := MergeRule("body_language", CommaPair),
    "char_label" := MergeRule("age_range", LabelWithAge),
    "creature_category" := MergeRule("creature_label", CommaPair),
    "music_genre" := MergeRule("music_mood", GenreWithMood),
    "sound_mode" := MergeRule("voiceover_text", SoundWithVoiceover)]

  /** `skipFields`: every partner, and `custom_location`, which only the setting rule reads. */
  const SkipFields: set<string> := {"movement", "location_type", "lens_brand", "lighting_type",
    "weather", "fill_light", "color_science", "color_grade", "hair_color", "body_language",
    "age_range", "creature_label", "music_mood", "voiceover_text", "custom_location"}

  /** Each rule's partner is skipped. */
  lemma PartnerSkipped(primary: string)
    requires primary in MergeRuleTable
    ensures MergeRuleTable[primary].mergeWith in SkipFields
  {
  }

  /** lib/prompt-builder.js lines 115-119: the skipped fields are exactly the partners collected from the rule table, plus `custom_location`. */
  lemma SkipFieldsArePartners()
    ensures SkipFields == (set p | p in MergeRuleTable :: MergeRuleTable[p].mergeWith) + {"custom_location"}
  {
    var collected := set p | p in MergeRuleTable :: MergeRuleTable[p].mergeWith;
    assert MergeRuleTable["shot_type"].mergeWith == "movement";
    assert MergeRuleTable["setting"].mergeWith == "location_type";
    assert MergeRuleTable["focal_length"].mergeWith == "lens_brand";
    assert MergeRuleTable["lighting_style"].mergeWith == "lighting_type";
    assert MergeRuleTable["env_time"].mergeWith == "weather";
    assert MergeRuleTable["key_light"].mergeWith == "fill_light";
    assert MergeRuleTable["camera_body"].mergeWith == "color_science";
    assert MergeRuleTable["film_stock"].mergeWith == "color_grade";
    assert MergeRuleTable["hair_style"].mergeWith == "hair_color";
    assert MergeRuleTable["expression"].mergeWith == "body_language";
    assert MergeRuleTable["char_label"].mergeWith == "age_range";
    assert MergeRuleTable["creature_category"].mergeWith == "creature_label";
    assert MergeRuleTable["music_genre"].mergeWith == "music_mood";
    assert MergeRuleTable["sound_mode"].mergeWith == "voiceover_text";
    forall p | p in MergeRuleTable ensures MergeRuleTable[p].mergeWith in SkipFields {
      PartnerSkipped(p);
    }
  }

  /** Every field a merge rule reads. */
  const MergeInputs: set<string> := MergeRuleTable.Keys + SkipFields

  /** No merge rule reads a `dialogue` field. */
  lemma DialogueNotMergeInput()
    ensures "dialogue" !in MergeInputs
  {
    assert "dialogue" !in MergeRuleTable.Keys;
    assert "dialogue" !in SkipFields;
  }

  /** `movement` is the partner of `shot_type` and of no other rule. */
  lemma MovementPartnersOnlyShot()
    ensures MergeRuleTable["shot_type"] == MergeRule("movement", ShotWithMovement)
    ensures forall q | q in MergeRuleTable && q != "shot_type" :: MergeRuleTable[q].mergeWith != "movement"
  {
  }

  /** `custom_location` is no rule's partner: only the setting rule reads it, as an extra input. */
  lemma CustomLocationNoPartner()
    ensures forall q | q in MergeRuleTable :: MergeRuleTable[q].mergeWith != "custom_location"
  {
  }

  /** No primary is a skipped field, so the walk reaches every rule. */
  lemma PrimariesNotSkipped()
    ensures forall p | p in MergeRuleTable :: p !in SkipFields
  {
    assert "shot_type" !in SkipFields && "setting" !in SkipFields;
    assert "focal_length" !in SkipFields && "lighting_style" !in SkipFields;
    assert "env_time" !in SkipFields && "key_light" !in SkipFields;
    assert "camera_body" !in SkipFields && "film_stock" !in SkipFields;
    assert "hair_style" !in SkipFields && "expression" !in SkipFields;
    assert "char_label" !in SkipFields && "creature_category" !in SkipFields;
    assert "music_genre" !in SkipFields && "sound_mode" !in SkipFields;
  }

  /** `a || b` on strings. */
  function Or(a: string, b: string): (r: string)
    ensures a != "" ==> r == a
    ensures a == "" ==> r == b
  {
    if a != "" then a else b
  }

  /** `shot_type` with `movement`. */
  function ShotFragment(shot: string, move: string): (r: string)
    ensures move == "" ==> r == shot
    ensures shot != "" && move == "static" ==> r == shot + ", " + "locked-off static camera"
    ensures shot != "" && move != "" && move != "static" ==> r == shot + " with " + move + " camera movement"
    ensures shot == "" && move == "static" ==> r == "locked-off static camera"
    ensures shot == "" && move != "" && move != "static" ==> r == move + " camera movement"
  {
    if shot != "" && move != "" then
      if move == "static" then shot + ", " + "locked-off static camera"
      else shot + " with " + move + " camera movement"
    else if move != "" then
      if move == "static" then "locked-off static camera" else move + " camera movement"
    else shot
  }

  /**
   * The shot fragment is empty only when both inputs are, keeps the shot in
   * front, and ends with the camera description whenever a movement is set.
   */
  lemma ShotFragmentShape(shot: string, move: string)
    ensures ShotFragment(shot, move) != "" <==> shot != "" || move != ""
    ensures shot != "" ==> StartsWith(ShotFragment(shot, move), shot)
    ensures move == "static" ==> EndsWith(ShotFragment(shot, move), "locked-off static camera")
    ensures move != "" && move != "static" ==> EndsWith(ShotFragment(shot, move), move + " camera movement")
  {
    var r := ShotFragment(shot, move);
    if move == "static" {
      var tail := "locked-off static camera";
      assert r[|r| - |tail|..] == tail;
      if shot != "" {
        assert r[..|shot|] == shot;
      }
    } else if move != "" {
      var tail := move + " camera movement";
      assert r[|r| - |tail|..] == tail;
      if shot != "" {
        assert r[..|shot|] == shot;
      }
    }
  }

  /** `setting` with `location_type`, plus `custom_location` read from the state. */
  function SettingFragment(setting: string, locType: string, custom: string): (r: string)
    ensures r == "" <==> setting == "" && locType == "" && custom == ""
    ensures setting != "" ==> StartsWith(r, setting)
    ensures custom != "" ==> EndsWith(r, custom)
    ensures locType == "" && custom == "" ==> r == setting
    ensures setting == "" && custom == "" ==> r == locType
    ensures setting == "" && locType == "" ==> r == custom
    ensures setting != "" && locType != "" && custom != "" ==> r == setting + ", " + locType + ", " + custom
    ensures setting != "" && locType != "" && custom == "" ==> r == setting + ", " + locType
    ensures setting != "" && locType == "" && custom != "" ==> r == setting + ", " + custom
    ensures setting == "" && locType != "" && custom != "" ==> r == locType + ", " + custom
  {
    var loc := if locType != "" && custom != "" then locType + ", " + custom else Or(locType, custom);
    if setting != "" && loc != "" then setting + ", " + loc else Or(setting, loc)
  }

  /** `focal_length` with `lens_brand`: " lens" is dropped before the brand. */
  function FocalFragment(focal: string, brand: string): (r: string)
    ensures focal == "" ==> r == brand
    ensures brand == "" ==> r == focal
    ensures focal != "" && brand != "" ==> EndsWith(r, " " + brand)
    ensures focal != "" && brand != "" && EndsWith(focal, " lens") ==> r[..|r| - |brand| - 1] + " lens" == focal
    ensures focal != "" && brand != "" && !EndsWith(focal, " lens") ==> r[..|r| - |brand| - 1] == focal
  {
    if focal != "" && brand != "" then
      var r := StripSuffix(focal, " lens") + " " + brand;
      assert r[|r| - |brand| - 1..] == " " + brand;
      r
    else Or(focal, brand)
  }

  /** `lighting_style` with `lighting_type`: " light", then " lighting", is dropped. */
  function LightingFragment(style: string, kind: string): (r: string)
    ensures style == "" ==> r == kind
    ensures kind == "" ==> r == style
    ensures style != "" && kind != "" ==>
      EndsWith(r, " " + kind) && StartsWith(style, r[..|r| - |kind| - 1])
    ensures style != "" && kind != "" ==>
      r == StripSuffix(StripSuffix(style, " light"), " lighting") + " " + kind
  {
    if style != "" && kind != "" then
      StripSuffix(StripSuffix(style, " light"), " lighting") + " " + kind
    else Or(style, kind)
  }

  /** The rules that join both sides with ", " (time/weather, key/fill, stock/grade, ...). */
  function CommaFragment(first: string, second: string): (r: string)
    ensures first == "" ==> r == second
    ensures second == "" ==> r == first
    ensures first != "" && second != "" ==> r == first + ", " + second
  {
    if first != "" && second != "" then first + ", " + second else Or(first, second)
  }

  /** `hair_style` with `hair_color`: one trailing " hair" for both. */
  function HairFragment(style: string, color: string): (r: string)
    ensures style == "" ==> r == color
    ensures color == "" ==> r == style
    ensures style != "" && color != "" ==> EndsWith(r, " hair")
    ensures style != "" && color != "" ==>
      r == StripSuffix(style, " hair") + " " + StripSuffix(color, " hair") + " hair"
  {
    if style != "" && color != "" then
      StripSuffix(style, " hair") + " " + StripSuffix(color, " hair") + " hair"
    else Or(style, color)
  }

  /** `char_label` with `age_range`: no comma before an age starting "in their". */
  function LabelFragment(name: string, age: string): (r: string)
    ensures name == "" ==> r == age
    ensures age == "" ==> r == name
    ensures name != "" && age != "" && StartsWith(age, "in their") ==> r == name + " " + age
    ensures name != "" && age != "" && !StartsWith(age, "in their") ==> r == name + ", " + age
  {
    if name != "" && age != "" then
      if StartsWith(age, "in their") then name + " " + age else name + ", " + age
    else Or(name, age)
  }

  /** `music_genre` with `music_mood`: the mood's first comma-separated clause, trimmed, then the genre. */
  function GenreFragment(genre: string, mood: string): (r: string)
    ensures genre == "" ==> r == mood
    ensures mood == "" ==> r == genre
    ensures genre != "" && mood != "" ==> r == Trim(Before(mood, ",")) + " " + genre
    ensures genre != "" && mood != "" ==>
      EndsWith(r, " " + genre) && forall k | 0 <= k < |r| - |genre| - 1 :: r[k] != ','
  {
    if genre != "" && mood != "" then MoodThenGenre(genre, mood) else Or(genre, mood)
  }

  /** The mood's first comma-separated clause, trimmed, a space, then the genre. */
  function MoodThenGenre(genre: string, mood: string): (r: string)
    ensures r == Trim(Before(mood, ",")) + " " + genre
    ensures EndsWith(r, " " + genre)
    ensures forall k | 0 <= k < |r| - |genre| - 1 :: r[k] != ','
  {
    var clause := Trim(Before(mood, ","));
    NoCommaInClause(mood, clause);
    ClauseThenWord(clause, genre);
    clause + " " + genre
  }

  /** `split(sep)[0]` holds no `sep`. */
  lemma BeforeLacksSeparatorText(s: string, sep: string)
    requires sep != []
    ensures forall i: nat :: !OccursAt(Before(s, sep), sep, i)
  {
    var r := Before(s, sep);
    forall i: nat ensures !OccursAt(r, sep, i) {
      if OccursAt(r, sep, i) {
        assert r == s[..|r|];
        assert r[i..i + |sep|] == s[i..i + |sep|];
        assert OccursAt(s, sep, i) && i < |r|;
      }
    }
  }

  /** A suffix of a string without `sep` has no `sep` either. */
  lemma SuffixLacksSeparator(s: string, r: string, sep: string)
    requires EndsWith(s, r)
    requires forall i: nat :: !OccursAt(s, sep, i)
    ensures forall i: nat :: !OccursAt(r, sep, i)
  {
    var d := |s| - |r|;
    forall i: nat ensures !OccursAt(r, sep, i) {
      if OccursAt(r, sep, i) {
        assert r[i..i + |sep|] == s[d + i..d + i + |sep|];
        assert OccursAt(s, sep, d + i);
      }
    }
  }

  /** A string without " flat " has no " flat log" either, and `includes` finds neither. */
  lemma FlatLogHasFlat(r: string)
    requires forall i: nat :: !OccursAt(r, " flat ", i)
    ensures !Contains(r, " flat ") && !Contains(r, " flat log")
  {
    ContainsIffOccurs(r, " flat ");
    ContainsIffOccurs(r, " flat log");
    forall i: nat ensures !OccursAt(r, " flat log", i) {
      if OccursAt(r, " flat log", i) {
        assert r[i..i + 6] == r[i..i + 9][..6];
        assert OccursAt(r, " flat ", i);
      }
    }
  }

  /** `split(c)[0]` holds no `c`. */
  lemma BeforeLacksSeparator(s: string, c: char)
    ensures forall k | 0 <= k < |Before(s, [c])| :: Before(s, [c])[k] != c
  {
    var r := Before(s, [c]);
    forall k | 0 <= k < |r| ensures r[k] != c {
      if r[k] == c {
        assert s[k] == r[k];
        OccursAtChar(s, c, k);
      }
    }
  }

  /** A piece cut out of a string without `c` has no `c` either. */
  lemma PieceLacksChar(s: string, piece: string, c: char)
    requires exists i: nat :: OccursAt(s, piece, i)
    requires forall k | 0 <= k < |s| :: s[k] != c
    ensures forall k | 0 <= k < |piece| :: piece[k] != c
  {
    var i: nat :| OccursAt(s, piece, i);
    forall k | 0 <= k < |piece| ensures piece[k] != c {
      assert piece[k] == s[i + k];
    }
  }

  /** The first clause of a mood holds no comma. */
  lemma NoCommaInClause(mood: string, clause: string)
    requires clause == Trim(Before(mood, ","))
    ensures forall k | 0 <= k < |clause| :: clause[k] != ','
  {
    BeforeLacksSeparator(mood, ',');
    PieceLacksChar(Before(mood, ","), clause, ',');
  }

  /** A comma-free clause, a space and a word: the word ends it and no comma precedes it. */
  lemma ClauseThenWord(clause: string, word: string)
    requires forall k | 0 <= k < |clause| :: clause[k] != ','
    ensures EndsWith(clause + " " + word, " " + word)
    ensures var r := clause + " " + word;
      forall k | 0 <= k < |r| - |word| - 1 :: r[k] != ','
  {
    var r := clause + " " + word;
    assert r[|r| - |word| - 1..] == " " + word;
    assert forall k | 0 <= k < |clause| :: r[k] == clause[k];
  }

  /** Voice-over text in double quotes, unless it already opens with a straight or curly quote. */
  function Quoted(text: string): (r: string)
    ensures StartsWith(r, "\"") || StartsWith(r, "\U{201C}")
    ensures StartsWith(text, "\"") || StartsWith(text, "\U{201C}") ==> r == text
    ensures !(StartsWith(text, "\"") || StartsWith(text, "\U{201C}")) ==> r == "\"" + text + "\""
  {
    if StartsWith(text, "\"") || StartsWith(text, "\U{201C}") then text
    else
      var r := "\"" + text + "\"";
      assert r[..1] == "\"";
      r
  }

  /** Quoting never wraps twice. */
  lemma QuotedOnce(text: string)
    ensures Quoted(Quoted(text)) == Quoted(text)
  {
  }

  /** `sound_mode` with `voiceover_text`: "{mode}: " then the trimmed text, quoted once. */
  function SoundFragment(mode: string, text: string): (r: string)
    ensures mode == "" ==> r == text
    ensures text == "" ==> r == mode
    ensures mode != "" && text != "" ==> r == mode + ": " + Quoted(Trim(text))
  {
    if mode != "" && text != "" then mode + ": " + Quoted(Trim(text)) else Or(mode, text)
  }

  /** The brands whose name is dropped from the front of a colour profile. */
  const Brands: seq<string> := ["ARRI", "Sony", "RED", "Canon", "Panasonic", "Blackmagic"]

  predicate BrandMatches(camera: string, profile: string, brand: string) {
    Contains(camera, brand) && StartsWith(profile, brand + " ")
  }

  /**
   * The profile with "{brand} " removed for the FIRST brand in `brands` that the
   * camera names and that prefixes the profile; unchanged when none does.
   */
  function StripFirstBrand(camera: string, profile: string, brands: seq<string>): (r: string)
    ensures (forall j | 0 <= j < |brands| :: !BrandMatches(camera, profile, brands[j])) ==> r == profile
    ensures EndsWith(profile, r)
    ensures forall j | 0 <= j < |brands| && BrandMatches(camera, profile, brands[j]) ::
      (forall i | 0 <= i < j :: !BrandMatches(camera, profile, brands[i])) ==>
        r == profile[|brands[j]| + 1..]
    decreases |brands|
  {
    if brands == [] then profile
    else if BrandMatches(camera, profile, brands[0]) then profile[|brands[0]| + 1..]
    else
      var r := StripFirstBrand(camera, profile, brands[1..]);
      assert forall j | 1 <= j < |brands| :: brands[j] == brands[1..][j - 1];
      r
  }

  /** The colour profile named by `color_science`: cut at " flat log", then at " flat ", then de-branded. */
  function ProfileName(camera: string, colorScience: string): (r: string)
    ensures EndsWith(Before(Before(colorScience, " flat log"), " flat "), r)
    ensures !Contains(r, " flat ") && !Contains(r, " flat log")
  {
    var cut := Before(Before(colorScience, " flat log"), " flat ");
    BeforeLacksSeparatorText(Before(colorScience, " flat log"), " flat ");
    SuffixLacksSeparator(cut, StripFirstBrand(camera, cut, Brands), " flat ");
    FlatLogHasFlat(StripFirstBrand(camera, cut, Brands));
    StripFirstBrand(camera, Before(Before(colorScience, " flat log"), " flat "), Brands)
  }

  /** `camera_body` with `color_science`. */
  function CameraFragment(camera: string, colorScience: string): (r: string)
    ensures camera == "" ==> r == colorScience
    ensures colorScience == "" ==> r == camera
    ensures camera != "" && colorScience != "" ==>
      r == camera + " in " + StripFirstBrand(camera, Before(Before(colorScience, " flat log"), " flat "), Brands)
        + ", flat log footage, ungraded"
    ensures camera != "" && colorScience != "" ==>
      StartsWith(r, camera + " in ") && EndsWith(r, ", flat log footage, ungraded")
  {
    if camera != "" && colorScience != "" then
      var r := camera + " in " + ProfileName(camera, colorScience) + ", flat log footage, ungraded";
      assert r[..|camera + " in "|] == camera + " in ";
      r
    else Or(camera, colorScience)
  }

  /** A rule's combinator applied to the primary's and the partner's text. */
  function Apply(fn: Combinator, a: string, b: string, custom: string): (r: string)
    ensures a != "" || b != "" ==> r != ""
    ensures fn != SettingWithLocation && a == "" && b == "" ==> r == ""
  {
    match fn
    case ShotWithMovement => ShotFragment(a, b)
    case SettingWithLocation => SettingFragment(a, b, custom)
    case FocalWithLensBrand => FocalFragment(a, b)
    case LightingStyleWithType => LightingFragment(a, b)
    case CommaPair => CommaFragment(a, b)
    case CameraWithColorScience => CameraFragment(a, b)
    case HairStyleWithColor => HairFragment(a, b)
    case LabelWithAge => LabelFragment(a, b)
    case GenreWithMood => GenreFragment(a, b)
    case SoundWithVoiceover => SoundFragment(a, b)
  }

  /**
   * Once a rule fires (primary or partner present), its fragment is never
   * empty; and except for `shot_type` and `setting`, a rule with one side
   * absent yields the other side verbatim.
   */
  lemma FiredRuleYieldsText(fn: Combinator, a: string, b: string, custom: string)
    requires a != "" || b != ""
    ensures Apply(fn, a, b, custom) != ""
    ensures fn != ShotWithMovement && fn != SettingWithLocation ==>
      (a == "" ==> Apply(fn, a, b, custom) == b) && (b == "" ==> Apply(fn, a, b, custom) == a)
  {
    match fn
    case FocalWithLensBrand =>
    case LightingStyleWithType =>
    case HairStyleWithColor =>
      if a != "" && b != "" { assert EndsWith(Apply(fn, a, b, custom), " hair"); }
    case GenreWithMood =>
      if a != "" && b != "" { assert EndsWith(Apply(fn, a, b, custom), " " + a); }
    case _ =>
  }

  /** The `camera_body` rule's brand loop: try each brand in order, stop at the first match. */
  method StripBrandPrefix(camera: string, profile: string) returns (p: string)
    ensures p == StripFirstBrand(camera, profile, Brands)
  {
    p := profile;
    var i := 0;
    while i < |Brands|
      invariant 0 <= i <= |Brands|
      invariant p == profile
      invariant StripFirstBrand(camera, profile, Brands[i..]) == StripFirstBrand(camera, profile, Brands)
    {
      var brand := Brands[i];
      if Contains(camera, brand) && StartsWith(p, brand + " ") {
        p := p[|brand| + 1..];
        break;
      }
      assert Brands[i..][1..] == Brands[i + 1..];
      i := i + 1;
    }
  }

  /** Runs one rule's `fn`, with the `camera_body` rule's brand loop executed step by step. */
  method RunRule(fn: Combinator, a: string, b: string, custom: string) returns (text: string)
    ensures text == Apply(fn, a, b, custom)
  {
    if fn == CameraWithColorScience && a != "" && b != "" {
      var profile := StripBrandPrefix(a, Before(Before(b, " flat log"), " flat "));
      text := a + " in " + profile + ", flat log footage, ungraded";
    } else {
      text := Apply(fn, a, b, custom);
    }
  }
}
