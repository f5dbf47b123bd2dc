/**
 * Configuration management: the default threshold set, the recursive merge that
 * derives profiles from it, the built-in profiles and the schema's required fields.
 */
module Config {
  import opened Values

  const ResolutionDefaults: Fields := [
    ("min_dpi_text", Num(300.0)),
    ("min_dpi_archival", Num(400.0))
  ]

  const ExposureDefaults: Fields := [
    ("max_shadow_clip_pct", Num(0.5)),
    ("max_highlight_clip_pct", Num(0.5)),
    ("target_bg_median_lum", Num(0.10)),
    ("illumination_uniformity_warn", Num(0.15)),
    ("illumination_uniformity_fail", Num(0.25))
  ]

  const ContrastDefaults: Fields := [
    ("min_global_contrast", Num(0.20)),
    ("warn_global_contrast", Num(0.15))
  ]

  const SharpnessDefaults: Fields := [
    ("min_laplacian_variance", Num(150.0)),
    ("warn_laplacian_variance", Num(120.0))
  ]

  const NoiseDefaults: Fields := [
    ("max_bg_noise_std", Num(0.04)),
    ("warn_bg_noise_std", Num(0.06))
  ]

  const GeometryDefaults: Fields := [
    ("max_skew_deg_pass", Num(1.0)),
    ("max_skew_deg_warn", Num(3.0))
  ]

  const BorderBackgroundDefaults: Fields := [
    ("require_black_background", Bool(true)),
    ("max_side_margin_ratio_pass", Num(0.10)),
    ("max_side_margin_ratio_warn", Num(0.12)),
    ("max_bg_median_luminance", Num(0.10))
  ]

  const ColorDefaults: Fields := [
    ("enable_color_checks", Bool(true)),
    ("max_gray_deltaE_pass", Num(5.0)),
    ("max_gray_deltaE_warn", Num(8.0)),
    ("max_hue_cast_degrees_warn", Num(6.0))
  ]

  const FormatIntegrityDefaults: Fields := [
    ("allowed_formats", Arr([Str("tiff"), Str("png"), Str("jpeg")])),
    ("jpeg_quality_warn", Num(0.85)),
    ("bit_depth_min", Num(8.0))
  ]

  const CompletenessDefaults: Fields := [
    ("min_margin_px", Num(8.0)),
    ("min_content_bbox_coverage", Num(0.90))
  ]

  const DocumentShadowDefaults: Fields := [
    ("shadow_threshold", Num(25.0)),
    ("analysis_band_width", Num(50.0)),
    ("min_contour_area", Num(10000.0)),
    ("gaussian_blur_kernel", Num(3.0)),
    ("canny_low", Num(50.0)),
    ("canny_high", Num(150.0)),
    ("warn_shadow_intensity", Num(20.0)),
    ("fail_shadow_intensity", Num(40.0))
  ]

  const ScoringDefaults: Fields := [
    ("four_star_weight", Num(1.0)),
    ("three_star_weight", Num(1.0)),
    ("two_star_weight", Num(1.0)),
    ("pass_score_threshold", Num(0.80)),
    ("warn_score_threshold", Num(0.65))
  ]

  const SlaDefaults: Fields := [
    ("enabled", Bool(true)),
    ("name", Str("Default Document Quality SLA")),
    ("description", Str("Standard quality requirements for document processing")),
    ("requirements", Obj([
      ("min_overall_score", Num(0.75)),
      ("max_fail_categories", Num(1.0)),
      ("required_pass_categories", Arr([Str("completeness"), Str("sharpness"), Str("resolution")])),
      ("performance_targets", Obj([
        ("sharpness_min_laplacian", Num(150.0)),
        ("contrast_min_global", Num(0.20)),
        ("resolution_min_dpi", Num(300.0)),
        ("noise_max_std", Num(0.04)),
        ("geometry_max_skew", Num(1.0)),
        ("exposure_max_highlight_clip", Num(0.5)),
        ("exposure_max_shadow_clip", Num(0.5))]))])),
    ("compliance_levels", Obj([
      ("excellent", Obj([("min_score", Num(0.90)), ("description", Str("Exceeds all SLA requirements"))])),
      ("compliant", Obj([("min_score", Num(0.75)), ("description", Str("Meets all SLA requirements"))])),
      ("warning", Obj([("min_score", Num(0.60)), ("description", Str("Below SLA but usable"))])),
      ("non_compliant", Obj([("min_score", Num(0.0)), ("description", Str("Does not meet SLA requirements"))]))]))
  ]

  /** The default configuration, section by section, in declaration order. */
  const DefaultConfig: Value := Obj([
    ("resolution", Obj(ResolutionDefaults)),
    ("exposure", Obj(ExposureDefaults)),
    ("contrast", Obj(ContrastDefaults)),
    ("sharpness", Obj(SharpnessDefaults)),
    ("noise", Obj(NoiseDefaults)),
    ("geometry", Obj(GeometryDefaults)),
    ("border_background", Obj(BorderBackgroundDefaults)),
    ("color", Obj(ColorDefaults)),
    ("format_integrity", Obj(FormatIntegrityDefaults)),
    ("completeness", Obj(CompletenessDefaults)),
    ("document_shadow", Obj(DocumentShadowDefaults)),
    ("scoring", Obj(ScoringDefaults)),
    ("sla", Obj(SlaDefaults))
  ])

  /**
   * `load_default_config`: the default configuration. Dictionaries are values here, so
   * the copy cannot be told apart from the original.
   */
  function LoadDefaultConfig(): (c: Value)
    ensures c.Obj? && Keys(c.fields) == Keys(DefaultConfig.fields)
    ensures forall k :: Lookup(c, k) == Lookup(DefaultConfig, k)
  {
    DefaultConfig
  }

  // ---------------------------------------------------------------------------
  // merge_configs

  /**
   * The value the merge stores under a key whose base value is `prior` and whose
   * override value is `v`: both dicts merge recursively, anything else is replaced.
   */
  function MergedValue(prior: Option<Value>, v: Value): Value
    decreases v, if v.Obj? then |v.fields| + 1 else 0
  {
    match prior
    case Some(Obj(bf)) => if v.Obj? then Obj(MergeFrom(bf, v, 0)) else v
    case _ => v
  }

  /** The merge loop from the override's `i`-th entry on, starting from `acc`. */
  function MergeFrom(acc: Fields, over: Value, i: nat): Fields
    requires over.Obj? && i <= |over.fields|
    decreases over, |over.fields| - i
  {
    if i == |over.fields| then acc
    else
      var entry := over.fields[i];
      assert entry in over.fields;
      MergeFrom(Put(acc, entry.0, MergedValue(Get(acc, entry.0), entry.1)), over, i + 1)
  }

  /** `merge_configs(base, override)`. */
  function Merge(base: Fields, over: Fields): Fields
  {
    MergeFrom(base, Obj(over), 0)
  }

  /** The merge loop, running through the override's entries in order. */
  method MergeConfigs(base: Fields, over: Fields) returns (merged: Fields)
    ensures merged == Merge(base, over)
    ensures over == [] ==> merged == base
    decreases Obj(over)
  {
    merged := base;
    var i := 0;
    while i < |over|
      invariant 0 <= i <= |over|
      invariant MergeFrom(merged, Obj(over), i) == Merge(base, over)
    {
      var key, value := over[i].0, over[i].1;
      assert over[i] in Obj(over).fields;
      var prior := Get(merged, key);
      if prior.Some? && prior.value.Obj? && value.Obj? {
        var sub := MergeConfigs(prior.value.fields, value.fields);
        merged := Put(merged, key, Obj(sub));
      } else {
        merged := Put(merged, key, value);
      }
      i := i + 1;
    }
  }

  /** Every key of the base and of the override survives, and the base's keys keep their order. */
  lemma {:induction false} MergeFromKeys(acc: Fields, over: Value, i: nat)
    requires over.Obj? && i <= |over.fields|
    ensures forall k :: k in Keys(MergeFrom(acc, over, i)) <==> k in Keys(acc) || k in Keys(over.fields[i..])
    ensures Keys(acc) <= Keys(MergeFrom(acc, over, i))
    decreases |over.fields| - i
  {
    var f := over.fields;
    if i < |f| {
      var e := f[i];
      var acc' := Put(acc, e.0, MergedValue(Get(acc, e.0), e.1));
      PutKeys(acc, e.0, MergedValue(Get(acc, e.0), e.1));
      MergeFromKeys(acc', over, i + 1);
      assert f[i..][1..] == f[i + 1..];
    } else {
      assert f[i..] == [];
    }
  }

  /** Keys of the merge: exactly the union of both inputs' keys, base keys first in their order. */
  lemma MergeKeys(base: Fields, over: Fields)
    ensures forall k :: k in Keys(Merge(base, over)) <==> k in Keys(base) || k in Keys(over)
    ensures Keys(base) <= Keys(Merge(base, over))
  {
    MergeFromKeys(base, Obj(over), 0);
    assert over[0..] == over;
  }

  /** The merge loop from entry `i` on: keys after `i` are merged into, all others keep `acc`'s value. */
  lemma {:induction false} MergeFromGet(acc: Fields, over: Value, i: nat, k: string)
    requires over.Obj? && i <= |over.fields| && UniqueKeys(over.fields)
    ensures Get(MergeFrom(acc, over, i), k) ==
      match Get(over.fields[i..], k)
      case None => Get(acc, k)
      case Some(v) => Some(MergedValue(Get(acc, k), v))
    decreases |over.fields| - i
  {
    var f := over.fields;
    if i < |f| {
      var e := f[i];
      var nv := MergedValue(Get(acc, e.0), e.1);
      var acc' := Put(acc, e.0, nv);
      MergeFromGet(acc', over, i + 1, k);
      assert f[i..][1..] == f[i + 1..];
      if k == e.0 {
        GetPutSame(acc, e.0, nv);
        UniqueAfter(f, i);
      } else {
        GetPutOther(acc, e.0, nv, k);
      }
    }
  }

  /**
   * The merge's value for each key: the override's value wins unless both values are
   * dicts, in which case the two merge recursively; keys only in the base keep its value.
   */
  lemma MergeGet(base: Fields, over: Fields, k: string)
    requires UniqueKeys(over)
    ensures Get(Merge(base, over), k) ==
      match Get(over, k)
      case None => Get(base, k)
      case Some(v) => Some(MergedValue(Get(base, k), v))
  {
    MergeFromGet(base, Obj(over), 0, k);
    assert over[0..] == over;
  }

  /** A merge of two dicts is again a dict: it introduces no duplicate key. */
  lemma {:induction false} MergeFromUnique(acc: Fields, over: Value, i: nat)
    requires over.Obj? && i <= |over.fields| && UniqueKeys(acc)
    ensures UniqueKeys(MergeFrom(acc, over, i))
    decreases |over.fields| - i
  {
    if i < |over.fields| {
      var e := over.fields[i];
      PutUnique(acc, e.0, MergedValue(Get(acc, e.0), e.1));
      MergeFromUnique(Put(acc, e.0, MergedValue(Get(acc, e.0), e.1)), over, i + 1);
    }
  }

  // ---------------------------------------------------------------------------
  // Profiles

  /**
   * A built-in profile: its display name, its description and the overrides its
   * configuration merges into the defaults (none for the strict profile, whose
   * configuration is the default one).
   */
  datatype Profile = Profile(name: string, description: string, overrides: Fields)

  /** A profile's configuration. */
  function ProfileConfig(p: Profile): Value
  {
    Obj(Merge(DefaultConfig.fields, p.overrides))
  }

  const LenientGeometry: Fields := [("max_skew_deg_pass", Num(2.0)), ("max_skew_deg_warn", Num(5.0))]
  const LenientBorder: Fields := [("max_side_margin_ratio_pass", Num(0.15)), ("max_side_margin_ratio_warn", Num(0.20))]
  const LenientSharpness: Fields := [("min_laplacian_variance", Num(100.0)), ("warn_laplacian_variance", Num(80.0))]
  const LenientOverride: Fields := [
    ("geometry", Obj(LenientGeometry)),
    ("border_background", Obj(LenientBorder)),
    ("sharpness", Obj(LenientSharpness))
  ]

  const ArchivalResolution: Fields := [("min_dpi_text", Num(400.0)), ("min_dpi_archival", Num(600.0))]
  const ArchivalSharpness: Fields := [("min_laplacian_variance", Num(200.0)), ("warn_laplacian_variance", Num(160.0))]
  const ArchivalNoise: Fields := [("max_bg_noise_std", Num(0.02)), ("warn_bg_noise_std", Num(0.03))]
  const ArchivalFormat: Fields := [("allowed_formats", Arr([Str("tiff"), Str("png")])), ("bit_depth_min", Num(16.0))]
  const ArchivalOverride: Fields := [
    ("resolution", Obj(ArchivalResolution)),
    ("sharpness", Obj(ArchivalSharpness)),
    ("noise", Obj(ArchivalNoise)),
    ("format_integrity", Obj(ArchivalFormat))
  ]

  function LenientConfig(): Value { Obj(Merge(DefaultConfig.fields, LenientOverride)) }
  function ArchivalConfig(): Value { Obj(Merge(DefaultConfig.fields, ArchivalOverride)) }

  /** `PROFILES`, in declaration order. */
  const Profiles: seq<(string, Profile)> :=
    [ ("document_black_background_strict",
        Profile("Document-Black-Background-Strict",
                "Strict quality control for documents on black backgrounds",
                [])),
      ("document_lenient",
        Profile("Document-Lenient",
                "More forgiving thresholds for legacy documents",
                LenientOverride)),
      ("archival_quality",
        Profile("Archival-Quality",
                "High standards for archival preservation",
                ArchivalOverride)) ]

  /** `", ".join(names)`. */
  function JoinNames(names: seq<string>): string
  {
    if |names| == 0 then ""
    else if |names| == 1 then names[0]
    else names[0] + ", " + JoinNames(names[1..])
  }

  /** `load_profile`: the profile's configuration, or the ValueError for an unknown name. */
  function LoadProfile(profileName: string): (r: Result<Value>)
    ensures r.Err? <==> profileName !in Keys(Profiles)
    ensures r.Err? ==>
      r.message == "Unknown profile '" + profileName + "'. Available profiles: " + JoinNames(Keys(Profiles))
    ensures r.Ok? ==> r.value.Obj?
  {
    match Get(Profiles, profileName)
    case None => Err("Unknown profile '" + profileName + "'. Available profiles: " + JoinNames(Keys(Profiles)))
    case Some(p) => Ok(ProfileConfig(p))
  }

  /** The profile names, in order. */
  lemma ProfileNames()
    ensures Keys(Profiles) == ["document_black_background_strict", "document_lenient", "archival_quality"]
  {
    KeysAt(Profiles, 0);
    KeysAt(Profiles, 1);
    KeysAt(Profiles, 2);
  }

  /** The strict profile's configuration is the default one. */
  lemma LoadStrictProfile()
    ensures LoadProfile("document_black_background_strict") == Ok(DefaultConfig)
  {
  }

  lemma LoadLenientProfile()
    ensures LoadProfile("document_lenient") == Ok(LenientConfig())
  {
    GetIndex(Profiles, 1);
  }

  lemma LoadArchivalProfile()
    ensures LoadProfile("archival_quality") == Ok(ArchivalConfig())
  {
    GetIndex(Profiles, 2);
  }

  /** The listing entry of one profile: its name and description. */
  function Summary(p: Profile): Value
  {
    Obj([("name", Str(p.name)), ("description", Str(p.description))])
  }

  /** The comprehension of `list_profiles`, over a sequence of profiles. */
  function Listing(ps: seq<(string, Profile)>): (r: Fields)
    ensures Keys(r) == Keys(ps)
    ensures forall i :: 0 <= i < |r| ==> r[i].1 == Summary(ps[i].1)
  {
    if ps == [] then [] else [(ps[0].0, Summary(ps[0].1))] + Listing(ps[1..])
  }

  /** `list_profiles`: each profile key mapped to its name and description. */
  function ListProfiles(): (r: Fields)
    ensures Keys(r) == Keys(Profiles)
    ensures forall i :: 0 <= i < |r| ==> r[i].1 == Summary(Profiles[i].1)
  {
    Listing(Profiles)
  }

  /** A name is listed exactly when it loads. */
  lemma ListedIffLoads(profileName: string)
    ensures profileName in Keys(ListProfiles()) <==> LoadProfile(profileName).Ok?
  {
  }

  /** A top-level section of the defaults, found under its own name. */
  lemma DefaultSectionAt(i: nat)
    requires i < |DefaultConfig.fields|
    ensures Get(DefaultConfig.fields, DefaultConfig.fields[i].0) == Some(DefaultConfig.fields[i].1)
  {
    GetIndex(DefaultConfig.fields, i);
  }

  /** The default sections the profiles override, found under their names. */
  lemma DefaultSections()
    ensures Get(DefaultConfig.fields, "resolution") == Some(Obj(ResolutionDefaults))
    ensures Get(DefaultConfig.fields, "sharpness") == Some(Obj(SharpnessDefaults))
    ensures Get(DefaultConfig.fields, "noise") == Some(Obj(NoiseDefaults))
    ensures Get(DefaultConfig.fields, "geometry") == Some(Obj(GeometryDefaults))
    ensures Get(DefaultConfig.fields, "border_background") == Some(Obj(BorderBackgroundDefaults))
    ensures Get(DefaultConfig.fields, "format_integrity") == Some(Obj(FormatIntegrityDefaults))
  {
    DefaultSectionAt(0);
    DefaultSectionAt(3);
    DefaultSectionAt(4);
    DefaultSectionAt(5);
    DefaultSectionAt(6);
    DefaultSectionAt(8);
  }

  lemma LenientOverrideShape()
    ensures UniqueKeys(LenientOverride)
    ensures Keys(LenientOverride) == ["geometry", "border_background", "sharpness"]
    ensures Get(LenientOverride, "geometry") == Some(Obj(LenientGeometry))
    ensures Get(LenientOverride, "border_background") == Some(Obj(LenientBorder))
    ensures Get(LenientOverride, "sharpness") == Some(Obj(LenientSharpness))
  {
    GetIndex(LenientOverride, 1);
    GetIndex(LenientOverride, 2);
  }

  lemma ArchivalOverrideShape()
    ensures UniqueKeys(ArchivalOverride)
    ensures Keys(ArchivalOverride) == ["resolution", "sharpness", "noise", "format_integrity"]
    ensures Get(ArchivalOverride, "resolution") == Some(Obj(ArchivalResolution))
    ensures Get(ArchivalOverride, "sharpness") == Some(Obj(ArchivalSharpness))
    ensures Get(ArchivalOverride, "noise") == Some(Obj(ArchivalNoise))
    ensures Get(ArchivalOverride, "format_integrity") == Some(Obj(ArchivalFormat))
  {
    GetIndex(ArchivalOverride, 1);
    GetIndex(ArchivalOverride, 2);
    GetIndex(ArchivalOverride, 3);
  }

  /** A section both inputs hold as dicts is the merge of the two sections. */
  lemma MergedSection(base: Fields, over: Fields, name: string, sb: Fields, so: Fields)
    requires UniqueKeys(over)
    requires Get(base, name) == Some(Obj(sb)) && Get(over, name) == Some(Obj(so))
    ensures Section(Obj(Merge(base, over)), name) == Obj(Merge(sb, so))
  {
    MergeGet(base, over, name);
  }

  /** Merging an override that holds no dict: the override's keys win and every other key keeps the base's value. */
  lemma {:induction false} FlatMerge(sb: Fields, so: Fields, k: string)
    requires UniqueKeys(so)
    requires forall j :: 0 <= j < |so| ==> !so[j].1.Obj?
    ensures Get(Merge(sb, so), k) == if k in Keys(so) then Get(so, k) else Get(sb, k)
  {
    MergeGet(sb, so, k);
    if k in Keys(so) {
      GetMember(so, k);
    }
  }

  /** Every top-level section the archival profile does not override is the default's. */
  lemma ArchivalKeepsDefaults(k: string)
    requires k !in ["resolution", "sharpness", "noise", "format_integrity"]
    ensures Lookup(ArchivalConfig(), k) == Lookup(DefaultConfig, k)
  {
    ArchivalOverrideShape();
    MergeGet(DefaultConfig.fields, ArchivalOverride, k);
  }

  lemma ArchivalResolutionMerged()
    ensures Section(ArchivalConfig(), "resolution") == Obj(Merge(ResolutionDefaults, ArchivalResolution))
  {
    DefaultSections();
    ArchivalOverrideShape();
    MergedSection(DefaultConfig.fields, ArchivalOverride, "resolution", ResolutionDefaults, ArchivalResolution);
  }

  /** Inside the merged section, the override's keys win and every other key keeps the default. */
  lemma ArchivalResolutionValues(k: string)
    ensures Get(Merge(ResolutionDefaults, ArchivalResolution), k) ==
      if k in Keys(ArchivalResolution) then Get(ArchivalResolution, k) else Get(ResolutionDefaults, k)
  {
    FlatMerge(ResolutionDefaults, ArchivalResolution, k);
  }

  /** Archival `resolution`: 400 dpi for text and 600 for archival use; the other limits stay. */
  lemma ArchivalResolutionSection(k: string)
    ensures Lookup(Section(ArchivalConfig(), "resolution"), k) ==
      if k in Keys(ArchivalResolution) then Get(ArchivalResolution, k) else Get(ResolutionDefaults, k)
  {
    ArchivalResolutionMerged();
    ArchivalResolutionValues(k);
  }

  lemma ArchivalSharpnessMerged()
    ensures Section(ArchivalConfig(), "sharpness") == Obj(Merge(SharpnessDefaults, ArchivalSharpness))
  {
    DefaultSections();
    ArchivalOverrideShape();
    MergedSection(DefaultConfig.fields, ArchivalOverride, "sharpness", SharpnessDefaults, ArchivalSharpness);
  }

  /** Inside the merged section, the override's keys win and every other key keeps the default. */
  lemma ArchivalSharpnessValues(k: string)
    ensures Get(Merge(SharpnessDefaults, ArchivalSharpness), k) ==
      if k in Keys(ArchivalSharpness) then Get(ArchivalSharpness, k) else Get(SharpnessDefaults, k)
  {
    FlatMerge(SharpnessDefaults, ArchivalSharpness, k);
  }

  /** Archival `sharpness`: 200 and 160 Laplacian limits. */
  lemma ArchivalSharpnessSection(k: string)
    ensures Lookup(Section(ArchivalConfig(), "sharpness"), k) ==
      if k in Keys(ArchivalSharpness) then Get(ArchivalSharpness, k) else Get(SharpnessDefaults, k)
  {
    ArchivalSharpnessMerged();
    ArchivalSharpnessValues(k);
  }

  lemma ArchivalNoiseMerged()
    ensures Section(ArchivalConfig(), "noise") == Obj(Merge(NoiseDefaults, ArchivalNoise))
  {
    DefaultSections();
    ArchivalOverrideShape();
    MergedSection(DefaultConfig.fields, ArchivalOverride, "noise", NoiseDefaults, ArchivalNoise);
  }

  /** Inside the merged section, the override's keys win and every other key keeps the default. */
  lemma ArchivalNoiseValues(k: string)
    ensures Get(Merge(NoiseDefaults, ArchivalNoise), k) ==
      if k in Keys(ArchivalNoise) then Get(ArchivalNoise, k) else Get(NoiseDefaults, k)
  {
    FlatMerge(NoiseDefaults, ArchivalNoise, k);
  }

  /** Archival `noise`: 0.02 and 0.03 background noise limits. */
  lemma ArchivalNoiseSection(k: string)
    ensures Lookup(Section(ArchivalConfig(), "noise"), k) ==
      if k in Keys(ArchivalNoise) then Get(ArchivalNoise, k) else Get(NoiseDefaults, k)
  {
    ArchivalNoiseMerged();
    ArchivalNoiseValues(k);
  }

  lemma ArchivalFormatMerged()
    ensures Section(ArchivalConfig(), "format_integrity") == Obj(Merge(FormatIntegrityDefaults, ArchivalFormat))
  {
    DefaultSections();
    ArchivalOverrideShape();
    MergedSection(DefaultConfig.fields, ArchivalOverride, "format_integrity", FormatIntegrityDefaults, ArchivalFormat);
  }

  /** Inside the merged section, the override's keys win and every other key keeps the default. */
  lemma ArchivalFormatValues(k: string)
    ensures Get(Merge(FormatIntegrityDefaults, ArchivalFormat), k) ==
      if k in Keys(ArchivalFormat) then Get(ArchivalFormat, k) else Get(FormatIntegrityDefaults, k)
  {
    FlatMerge(FormatIntegrityDefaults, ArchivalFormat, k);
  }

  /** Archival `format_integrity`: tiff/png only and a 16-bit minimum; the JPEG quality limit stays. */
  lemma ArchivalFormatSection(k: string)
    ensures Lookup(Section(ArchivalConfig(), "format_integrity"), k) ==
      if k in Keys(ArchivalFormat) then Get(ArchivalFormat, k) else Get(FormatIntegrityDefaults, k)
  {
    ArchivalFormatMerged();
    ArchivalFormatValues(k);
  }

  /** The two archival values the source's tests read. */
  lemma ArchivalProfile()
    ensures var c := ArchivalConfig();
      && Lookup(Section(c, "resolution"), "min_dpi_text") == Some(Num(400.0))
      && Lookup(Section(c, "format_integrity"), "bit_depth_min") == Some(Num(16.0))
  {
    ArchivalResolutionSection("min_dpi_text");
    ArchivalFormatSection("bit_depth_min");
  }

  /** Every top-level section the lenient profile does not override is the default's. */
  lemma LenientKeepsDefaults(k: string)
    requires k !in ["geometry", "border_background", "sharpness"]
    ensures Lookup(LenientConfig(), k) == Lookup(DefaultConfig, k)
  {
    LenientOverrideShape();
    MergeGet(DefaultConfig.fields, LenientOverride, k);
  }

  lemma LenientGeometryMerged()
    ensures Section(LenientConfig(), "geometry") == Obj(Merge(GeometryDefaults, LenientGeometry))
  {
    DefaultSections();
    LenientOverrideShape();
    MergedSection(DefaultConfig.fields, LenientOverride, "geometry", GeometryDefaults, LenientGeometry);
  }

  /** Inside the merged section, the override's keys win and every other key keeps the default. */
  lemma LenientGeometryValues(k: string)
    ensures Get(Merge(GeometryDefaults, LenientGeometry), k) ==
      if k in Keys(LenientGeometry) then Get(LenientGeometry, k) else Get(GeometryDefaults, k)
  {
    FlatMerge(GeometryDefaults, LenientGeometry, k);
  }

  /** Lenient `geometry`: 2 and 5 degree skew limits. */
  lemma LenientGeometrySection(k: string)
    ensures Lookup(Section(LenientConfig(), "geometry"), k) ==
      if k in Keys(LenientGeometry) then Get(LenientGeometry, k) else Get(GeometryDefaults, k)
  {
    LenientGeometryMerged();
    LenientGeometryValues(k);
  }

  lemma LenientBorderMerged()
    ensures Section(LenientConfig(), "border_background") == Obj(Merge(BorderBackgroundDefaults, LenientBorder))
  {
    DefaultSections();
    LenientOverrideShape();
    MergedSection(DefaultConfig.fields, LenientOverride, "border_background", BorderBackgroundDefaults, LenientBorder);
  }

  /** Inside the merged section, the override's keys win and every other key keeps the default. */
  lemma LenientBorderValues(k: string)
    ensures Get(Merge(BorderBackgroundDefaults, LenientBorder), k) ==
      if k in Keys(LenientBorder) then Get(LenientBorder, k) else Get(BorderBackgroundDefaults, k)
  {
    FlatMerge(BorderBackgroundDefaults, LenientBorder, k);
  }

  /** Lenient `border_background`: wider margin limits; the background and luminance settings stay. */
  lemma LenientBorderSection(k: string)
    ensures Lookup(Section(LenientConfig(), "border_background"), k) ==
      if k in Keys(LenientBorder) then Get(LenientBorder, k) else Get(BorderBackgroundDefaults, k)
  {
    LenientBorderMerged();
    LenientBorderValues(k);
  }

  lemma LenientSharpnessMerged()
    ensures Section(LenientConfig(), "sharpness") == Obj(Merge(SharpnessDefaults, LenientSharpness))
  {
    DefaultSections();
    LenientOverrideShape();
    MergedSection(DefaultConfig.fields, LenientOverride, "sharpness", SharpnessDefaults, LenientSharpness);
  }

  /** Inside the merged section, the override's keys win and every other key keeps the default. */
  lemma LenientSharpnessValues(k: string)
    ensures Get(Merge(SharpnessDefaults, LenientSharpness), k) ==
      if k in Keys(LenientSharpness) then Get(LenientSharpness, k) else Get(SharpnessDefaults, k)
  {
    FlatMerge(SharpnessDefaults, LenientSharpness, k);
  }

  /** Lenient `sharpness`: 100 and 80 Laplacian limits. */
  lemma LenientSharpnessSection(k: string)
    ensures Lookup(Section(LenientConfig(), "sharpness"), k) ==
      if k in Keys(LenientSharpness) then Get(LenientSharpness, k) else Get(SharpnessDefaults, k)
  {
    LenientSharpnessMerged();
    LenientSharpnessValues(k);
  }

  // ---------------------------------------------------------------------------
  // Schema

  /**
   * The schema's requirements: a dict whose `resolution` section, when present, is a
   * dict holding `min_dpi_text`, and whose `border_background` section, when present,
   * is a dict holding `max_side_margin_ratio_pass`. No top-level key is required.
   */
  predicate SchemaValid(config: Value)
  {
    && config.Obj?
    && (Has(config, "resolution") ==>
          Lookup(config, "resolution").value.Obj? && Has(Lookup(config, "resolution").value, "min_dpi_text"))
    && (Has(config, "border_background") ==>
          Lookup(config, "border_background").value.Obj?
          && Has(Lookup(config, "border_background").value, "max_side_margin_ratio_pass"))
  }

  /** `validate_config`: the config itself, or the ValueError. */
  function ValidateConfig(config: Value): (r: Result<Value>)
    ensures r.Ok? <==> SchemaValid(config)
    ensures r.Ok? ==> r.value == config
  {
    if SchemaValid(config) then Ok(config) else Err("Invalid configuration")
  }

  /** The schema accepts `{'invalid': 'config'}` and rejects a `resolution` section without `min_dpi_text`. */
  lemma SchemaExamples()
    ensures SchemaValid(Obj([("invalid", Str("config"))]))
    ensures !SchemaValid(Obj([("resolution", Obj([]))]))
  {
  }

  /** A dict whose two checked sections are dicts holding the required keys passes the schema. */
  lemma SchemaValidSections(c: Fields, res: Fields, bb: Fields)
    requires Get(c, "resolution") == Some(Obj(res)) && "min_dpi_text" in Keys(res)
    requires Get(c, "border_background") == Some(Obj(bb)) && "max_side_margin_ratio_pass" in Keys(bb)
    ensures SchemaValid(Obj(c))
  {
  }

  /** The default configuration passes the schema. */
  lemma DefaultSchemaValid()
    ensures SchemaValid(DefaultConfig)
  {
    DefaultSections();
    KeysAt(ResolutionDefaults, 0);
    KeysAt(BorderBackgroundDefaults, 1);
    SchemaValidSections(DefaultConfig.fields, ResolutionDefaults, BorderBackgroundDefaults);
  }

  /** The lenient profile still passes the schema. */
  lemma LenientSchemaValid()
    ensures SchemaValid(LenientConfig())
  {
    LenientKeepsDefaults("resolution");
    LenientBorderSection("max_side_margin_ratio_pass");
    DefaultSchemaValid();
  }

  /** The archival profile still passes the schema. */
  lemma ArchivalSchemaValid()
    ensures SchemaValid(ArchivalConfig())
  {
    ArchivalKeepsDefaults("border_background");
    ArchivalResolutionSection("min_dpi_text");
    DefaultSchemaValid();
  }
}
