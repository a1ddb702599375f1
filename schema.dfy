/** The composer's static tables: section order, media subcategories and the gear group. */
module Schema {

  /** A named, ordered group of field names. */
  datatype Section = Section(name: string, fields: seq<string>)

  /** `SECTION_ORDER`: output order of sections and, within each, of fields. */
  const SectionOrder: seq<Section> := [
    Section("STYLE", ["media_type", "commercial_type", "documentary_style", "animation_style",
      "music_video_style", "social_media_style", "genre", "tone", "format"]),
    Section("SUBJECT", SubjectFields),
    Section("ACTIONS", ["movement_type", "pacing", "interaction_type", "action_primary",
      "beat_1", "beat_2", "beat_3"]),
    Section("ENVIRONMENT", ["setting", "isolation", "location_type", "abstract_environment",
      "custom_location", "location", "env_time", "weather", "props", "env_fg", "env_mg",
      "env_bg"]),
    Section("CINEMATOGRAPHY", ["shot_type", "movement", "camera_body", "focal_length",
      "lens_brand", "lens_filter", "dof", "lighting_style", "lighting_type", "key_light",
      "fill_light"]),
    Section("PALETTE", ["color_science", "film_stock", "color_grade", "palette_colors",
      "skin_tones"]),
    Section("SOUND", ["sound_mode", "voiceover_text", "sfx_environment", "sfx_interior",
      "sfx_mechanical", "sfx_dramatic", "ambient", "music_genre", "music_mood", "music"])
  ]

  /**
   * The SUBJECT section's fields, in the source's order: the runs that belong
   * to one kind of subject, one after the other.
   */
  const SubjectFields: seq<string> :=
    CharacterFields + CreatureFields + ObjectFields + ProductFields + FoodFields
    + ClothingFields + ArtFields + BotanicalFields + VehicleFields + LandscapeFields
    + AbstractFields

  const CharacterFields: seq<string> := ["char_label", "age_range", "build", "hair_style",
    "hair_color", "subject_description", "wardrobe", "expression", "body_language", "framing"]
  const CreatureFields: seq<string> := ["creature_category", "creature_label", "creature_size",
    "creature_body", "creature_skin", "creature_description", "creature_expression",
    "creature_framing"]
  const ObjectFields: seq<string> := ["obj_description", "obj_material", "obj_condition",
    "obj_scale"]
  const ProductFields: seq<string> := ["prod_description", "prod_material", "prod_staging",
    "prod_condition"]
  const FoodFields: seq<string> := ["food_description", "food_state", "food_presentation",
    "food_texture"]
  const ClothingFields: seq<string> := ["cloth_description", "cloth_fabric",
    "cloth_presentation", "cloth_fit"]
  const ArtFields: seq<string> := ["art_description", "art_medium", "art_setting",
    "art_condition"]
  const BotanicalFields: seq<string> := ["botan_description", "botan_type", "botan_stage",
    "botan_detail"]
  const VehicleFields: seq<string> := ["veh_type", "veh_description", "veh_era", "veh_condition"]
  const LandscapeFields: seq<string> := ["land_season", "land_scale"]
  const AbstractFields: seq<string> := ["abs_description", "abs_quality", "abs_movement"]

  /** `MEDIA_SUBCAT_FIELDS`: the subcategory field each media type pulls in. */
  const MediaSubcatFields: map<string, string> := map[
    "commercial" := "commercial_type", "cinematic" := "genre",
    "documentary" := "documentary_style", "animation" := "animation_style",
    "music video" := "music_video_style", "social media" := "social_media_style"]

  /** `MEDIA_ABSORBED`: `media_type` and the subcategory fields it absorbs. */
  const MediaAbsorbed: set<string> := {"media_type", "commercial_type", "documentary_style",
    "animation_style", "music_video_style", "social_media_style", "genre"}

  /** Every subcategory field a media type pulls in is absorbed, and so never emitted on its own. */
  lemma SubcatAbsorbed(mediaType: string)
    requires mediaType in MediaSubcatFields
    ensures MediaSubcatFields[mediaType] in MediaAbsorbed
    ensures MediaSubcatFields[mediaType] != "media_type"
  {
  }

  /** `gearFields`: CINEMATOGRAPHY fields grouped into one camera-gear sentence. */
  const GearFields: set<string> := {"camera_body", "focal_length", "lens_filter"}

  /** `name` is one of the fields the section table walks. */
  predicate InTable(name: string) {
    exists i | 0 <= i < |SectionOrder| :: name in SectionOrder[i].fields
  }

  // `media_type` matters because the composite is emitted only in STYLE,
  // `dialogue` because no section lists it.
  lemma MediaTypeNotInSubject()
    ensures "media_type" !in SectionOrder[1].fields
  {
    assert "media_type" !in CharacterFields && "media_type" !in CreatureFields;
    assert "media_type" !in ObjectFields && "media_type" !in ProductFields;
    assert "media_type" !in FoodFields && "media_type" !in ClothingFields;
    assert "media_type" !in ArtFields && "media_type" !in BotanicalFields;
    assert "media_type" !in VehicleFields && "media_type" !in LandscapeFields;
    assert "media_type" !in AbstractFields;
  }
  lemma DialogueNotInSubject()
    ensures "dialogue" !in SectionOrder[1].fields
  {
    assert "dialogue" !in CharacterFields && "dialogue" !in CreatureFields;
    assert "dialogue" !in ObjectFields && "dialogue" !in ProductFields;
    assert "dialogue" !in FoodFields && "dialogue" !in ClothingFields;
    assert "dialogue" !in ArtFields && "dialogue" !in BotanicalFields;
    assert "dialogue" !in VehicleFields && "dialogue" !in LandscapeFields;
    assert "dialogue" !in AbstractFields;
  }
  lemma MediaTypeAndDialogueNotInActions()
    ensures "media_type" !in SectionOrder[2].fields && "dialogue" !in SectionOrder[2].fields {}
  lemma MediaTypeAndDialogueNotInEnvironment()
    ensures "media_type" !in SectionOrder[3].fields && "dialogue" !in SectionOrder[3].fields {}
  lemma MediaTypeAndDialogueNotInCinematography()
    ensures "media_type" !in SectionOrder[4].fields && "dialogue" !in SectionOrder[4].fields {}
  lemma MediaTypeAndDialogueNotInPalette()
    ensures "media_type" !in SectionOrder[5].fields && "dialogue" !in SectionOrder[5].fields {}
  lemma MediaTypeAndDialogueNotInSound()
    ensures "media_type" !in SectionOrder[6].fields && "dialogue" !in SectionOrder[6].fields {}

  /** `media_type` and `dialogue` appear in no section after STYLE. */
  lemma MediaTypeAndDialogueOnlyInStyle()
    ensures forall k | 1 <= k < |SectionOrder| :: "media_type" !in SectionOrder[k].fields
    ensures forall k | 1 <= k < |SectionOrder| :: "dialogue" !in SectionOrder[k].fields
  {
    MediaTypeNotInSubject();
    DialogueNotInSubject();
    MediaTypeAndDialogueNotInActions();
    MediaTypeAndDialogueNotInEnvironment();
    MediaTypeAndDialogueNotInCinematography();
    MediaTypeAndDialogueNotInPalette();
    MediaTypeAndDialogueNotInSound();
  }

  /** Within STYLE, `media_type` is the first field and only the first, and `dialogue` is absent. */
  lemma StyleStartsWithMediaType()
    ensures SectionOrder[0].name == "STYLE" && SectionOrder[0].fields[0] == "media_type"
    ensures "media_type" !in SectionOrder[0].fields[1..]
    ensures "dialogue" !in SectionOrder[0].fields
  {
    assert SectionOrder[0].fields[1..] == ["commercial_type", "documentary_style", "animation_style",
      "music_video_style", "social_media_style", "genre", "tone", "format"];
  }

  /** `media_type` is listed exactly once in the table: first, in STYLE. */
  lemma MediaTypeListedOnce()
    ensures SectionOrder[0].name == "STYLE" && SectionOrder[0].fields[0] == "media_type"
    ensures "media_type" !in SectionOrder[0].fields[1..]
    ensures forall k | 1 <= k < |SectionOrder| :: "media_type" !in SectionOrder[k].fields
  {
    StyleStartsWithMediaType();
    MediaTypeAndDialogueOnlyInStyle();
  }

  /** No section lists a `dialogue` field. */
  lemma DialogueNotInTable()
    ensures !InTable("dialogue")
  {
    MediaTypeAndDialogueOnlyInStyle();
    StyleStartsWithMediaType();
  }

  /** `shot_type` is listed exactly once in the table: first, in CINEMATOGRAPHY. */
  lemma ShotTypeListedOnce()
    ensures SectionOrder[4].name == "CINEMATOGRAPHY" && SectionOrder[4].fields[0] == "shot_type"
    ensures "shot_type" !in SectionOrder[4].fields[1..]
    ensures forall k | 0 <= k < |SectionOrder| && k != 4 :: "shot_type" !in SectionOrder[k].fields
  {
    ShotTypeNotInSubject();
    ShotTypeNotInStyleOrActions();
    ShotTypeNotInEnvironment();
    ShotTypeNotInPaletteOrSound();
    assert SectionOrder[4].fields[1..] == ["movement", "camera_body", "focal_length",
      "lens_brand", "lens_filter", "dof", "lighting_style", "lighting_type", "key_light",
      "fill_light"];
  }

  lemma ShotTypeNotInStyleOrActions()
    ensures "shot_type" !in SectionOrder[0].fields && "shot_type" !in SectionOrder[2].fields {}
  lemma ShotTypeNotInEnvironment()
    ensures "shot_type" !in SectionOrder[3].fields {}
  lemma ShotTypeNotInPaletteOrSound()
    ensures "shot_type" !in SectionOrder[5].fields && "shot_type" !in SectionOrder[6].fields {}

  lemma ShotTypeNotInSubject()
    ensures "shot_type" !in SectionOrder[1].fields
  {
    assert "shot_type" !in CharacterFields && "shot_type" !in CreatureFields;
    assert "shot_type" !in ObjectFields && "shot_type" !in ProductFields;
    assert "shot_type" !in FoodFields && "shot_type" !in ClothingFields;
    assert "shot_type" !in ArtFields && "shot_type" !in BotanicalFields;
    assert "shot_type" !in VehicleFields && "shot_type" !in LandscapeFields;
    assert "shot_type" !in AbstractFields;
  }
}
