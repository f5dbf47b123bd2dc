/**
 * The quality scorer: per-category threshold rules turn a category's metrics into
 * pass, warn or fail; the statuses become numbers, the numbers a weighted mean, the
 * mean a star band, and warn/fail categories become action strings.
 */
module Scoring {
  import opened Values
  import Config

  datatype Status = Pass | Warn | Fail

  /** `Status.value`. */
  function StatusValue(s: Status): string
  {
    match s
    case Pass => "pass"
    case Warn => "warn"
    case Fail => "fail"
  }

  /** `Status(v)`: the status whose value is `v`, if any. */
  function ParseStatus(v: string): (r: Option<Status>)
    ensures r.Some? ==> StatusValue(r.value) == v
  {
    if v == "pass" then Some(Pass)
    else if v == "warn" then Some(Warn)
    else if v == "fail" then Some(Fail)
    else None
  }

  lemma StatusValueRoundTrip(s: Status)
    ensures ParseStatus(StatusValue(s)) == Some(s)
  {
  }

  /** How bad a status is: pass 0, warn 1, fail 2. */
  function Severity(s: Status): nat
  {
    match s
    case Pass => 0
    case Warn => 1
    case Fail => 2
  }

  /** `_status_to_score`. */
  function StatusToScore(s: Status): (r: real)
    ensures 0.0 <= r <= 1.0
    ensures r == 1.0 <==> s == Pass
    ensures r == 0.0 <==> s == Fail
  {
    match s
    case Pass => 1.0
    case Warn => 0.75
    case Fail => 0.0
  }

  /** A worse status never scores higher. */
  lemma ScoreFallsWithSeverity(a: Status, b: Status)
    requires Severity(a) <= Severity(b)
    ensures StatusToScore(b) <= StatusToScore(a)
  {
  }

  // ---------------------------------------------------------------------------
  // The two threshold shapes the rules share

  /** A higher-is-better measure: below `warnLimit` fails, below `passLimit` warns. */
  function HigherIsBetter(x: real, passLimit: real, warnLimit: real): Status
  {
    if x < warnLimit then Fail else if x < passLimit then Warn else Pass
  }

  /** A lower-is-better measure: above `warnLimit` fails, above `passLimit` warns. */
  function LowerIsBetter(x: real, passLimit: real, warnLimit: real): Status
  {
    if x > warnLimit then Fail else if x > passLimit then Warn else Pass
  }

  /** Raising a higher-is-better measure never worsens the status. */
  lemma HigherIsBetterMonotone(x: real, y: real, passLimit: real, warnLimit: real)
    requires x <= y
    ensures Severity(HigherIsBetter(y, passLimit, warnLimit)) <= Severity(HigherIsBetter(x, passLimit, warnLimit))
  {
  }

  /** Raising a lower-is-better measure never improves the status. */
  lemma LowerIsBetterMonotone(x: real, y: real, passLimit: real, warnLimit: real)
    requires x <= y
    ensures Severity(LowerIsBetter(x, passLimit, warnLimit)) <= Severity(LowerIsBetter(y, passLimit, warnLimit))
  {
  }

  /** The limits are strict: a value equal to the warn limit only warns, anything above fails. */
  lemma LowerIsBetterAtLimits(x: real, passLimit: real, warnLimit: real)
    requires passLimit < warnLimit
    ensures LowerIsBetter(warnLimit, passLimit, warnLimit) == Warn
    ensures LowerIsBetter(passLimit, passLimit, warnLimit) == Pass
    ensures x > warnLimit ==> LowerIsBetter(x, passLimit, warnLimit) == Fail
  {
  }

  /** A value equal to the fail limit of a higher-is-better measure is not a failure. */
  lemma HigherIsBetterAtLimits(passLimit: real, warnLimit: real)
    requires warnLimit < passLimit
    ensures HigherIsBetter(warnLimit, passLimit, warnLimit) == Warn
    ensures HigherIsBetter(passLimit, passLimit, warnLimit) == Pass
  {
  }

  // ---------------------------------------------------------------------------
  // Per-category rules; `m` is the category's metrics, `cfg` its config section

  /** `_score_completeness`: an edge touch or too little coverage fails; never a warning. */
  function ScoreCompleteness(m: Value, cfg: Value): (r: Status)
    ensures r != Warn
    ensures TruthyOr(m, "edge_touch_flag", false) ==> r == Fail
  {
    var minCoverage := NumOr(cfg, "min_content_bbox_coverage", 0.90);
    var coverage := NumOr(m, "content_bbox_coverage", 0.0);
    if TruthyOr(m, "edge_touch_flag", false) || coverage < minCoverage then Fail else Pass
  }

  /** `_score_foreign_objects`: a detected object only warns; never a failure. */
  function ScoreForeignObjects(m: Value): (r: Status)
    ensures r != Fail
    ensures r == Warn <==> TruthyOr(m, "foreign_object_flag", false)
  {
    if TruthyOr(m, "foreign_object_flag", false) then Warn else Pass
  }

  /** `_score_sharpness`: Laplacian variance, higher is better (150 / 120 by default). */
  function ScoreSharpness(m: Value, cfg: Value): Status
  {
    HigherIsBetter(NumOr(m, "laplacian_var", 0.0),
                   NumOr(cfg, "min_laplacian_variance", 150.0),
                   NumOr(cfg, "warn_laplacian_variance", 120.0))
  }

  /** `_score_exposure`: any clip over its limit or a uniformity ratio over the fail limit fails. */
  function ScoreExposure(m: Value, cfg: Value): (r: Status)
    ensures NumOr(Section(m, "clipping"), "shadow_clip_pct", 0.0) > NumOr(cfg, "max_shadow_clip_pct", 0.5) ==> r == Fail
    ensures NumOr(Section(m, "clipping"), "highlight_clip_pct", 0.0) > NumOr(cfg, "max_highlight_clip_pct", 0.5) ==> r == Fail
  {
    var clipping := Section(m, "clipping");
    var uniformity := Section(m, "illumination_uniformity");
    var shadowClip := NumOr(clipping, "shadow_clip_pct", 0.0);
    var highlightClip := NumOr(clipping, "highlight_clip_pct", 0.0);
    var ratio := NumOr(uniformity, "uniformity_ratio", 0.0);
    if shadowClip > NumOr(cfg, "max_shadow_clip_pct", 0.5)
       || highlightClip > NumOr(cfg, "max_highlight_clip_pct", 0.5)
       || ratio > NumOr(cfg, "illumination_uniformity_fail", 0.25)
    then Fail
    else if ratio > NumOr(cfg, "illumination_uniformity_warn", 0.15) then Warn
    else Pass
  }

  /** `_score_contrast`: global contrast, higher is better (0.20 / 0.15 by default). */
  function ScoreContrast(m: Value, cfg: Value): Status
  {
    HigherIsBetter(NumOr(m, "global_contrast", 0.0),
                   NumOr(cfg, "min_global_contrast", 0.20),
                   NumOr(cfg, "warn_global_contrast", 0.15))
  }

  /** `_score_geometry`: absolute skew, lower is better (1 / 3 degrees by default). */
  function ScoreGeometry(m: Value, cfg: Value): Status
  {
    LowerIsBetter(NumOr(m, "skew_angle_abs", 0.0),
                  NumOr(cfg, "max_skew_deg_pass", 1.0),
                  NumOr(cfg, "max_skew_deg_warn", 3.0))
  }

  /** The largest of the four margin ratios. */
  function MaxSideRatio(m: Value): real
  {
    Max(Max(Max(NumOr(m, "left_margin_ratio", 0.0), NumOr(m, "right_margin_ratio", 0.0)),
            NumOr(m, "top_margin_ratio", 0.0)),
        NumOr(m, "bottom_margin_ratio", 0.0))
  }

  /** `_score_border_background`: a bright background fails whatever the margins; else the widest margin decides. */
  function ScoreBorderBackground(m: Value, cfg: Value): (r: Status)
    ensures NumOr(m, "bg_median_lum", 0.0) > NumOr(cfg, "max_bg_median_luminance", 0.10) ==> r == Fail
    ensures NumOr(m, "bg_median_lum", 0.0) <= NumOr(cfg, "max_bg_median_luminance", 0.10) ==>
      r == LowerIsBetter(MaxSideRatio(m), NumOr(cfg, "max_side_margin_ratio_pass", 0.10),
                         NumOr(cfg, "max_side_margin_ratio_warn", 0.12))
  {
    if NumOr(m, "bg_median_lum", 0.0) > NumOr(cfg, "max_bg_median_luminance", 0.10) then Fail
    else LowerIsBetter(MaxSideRatio(m), NumOr(cfg, "max_side_margin_ratio_pass", 0.10),
                       NumOr(cfg, "max_side_margin_ratio_warn", 0.12))
  }

  /** `_score_noise`: background noise, lower is better (0.04 / 0.06 by default). */
  function ScoreNoise(m: Value, cfg: Value): Status
  {
    LowerIsBetter(NumOr(m, "bg_noise_std", 0.0),
                  NumOr(cfg, "max_bg_noise_std", 0.04),
                  NumOr(cfg, "warn_bg_noise_std", 0.06))
  }

  /** `_score_color`: a hue cast only warns; disabled colour checks pass; never a failure. */
  function ScoreColor(m: Value, cfg: Value): (r: Status)
    ensures r != Fail
    ensures !TruthyOr(m, "enabled", true) ==> r == Pass
  {
    if !TruthyOr(m, "enabled", true) then Pass
    else if Abs(NumOr(m, "hue_cast_degrees", 0.0)) > NumOr(cfg, "max_hue_cast_degrees_warn", 6.0) then Warn
    else Pass
  }

  /** `_score_format_integrity`: a disallowed format or too small a bit depth fails; never a warning. */
  function ScoreFormatIntegrity(m: Value, cfg: Value): (r: Status)
    ensures r != Warn
    ensures !TruthyOr(m, "format_allowed", true) ==> r == Fail
  {
    if !TruthyOr(m, "format_allowed", true) || NumOr(m, "bit_depth", 8.0) < NumOr(cfg, "bit_depth_min", 8.0)
    then Fail else Pass
  }

  /** `_score_resolution`: the smaller DPI below `min_dpi_text` fails; never a warning. */
  function ScoreResolution(m: Value, cfg: Value): (r: Status)
    ensures r != Warn
    ensures r == Fail <==>
      NumOr(m, "effective_dpi_x", 72.0) < NumOr(cfg, "min_dpi_text", 300.0)
      || NumOr(m, "effective_dpi_y", 72.0) < NumOr(cfg, "min_dpi_text", 300.0)
  {
    if Min(NumOr(m, "effective_dpi_x", 72.0), NumOr(m, "effective_dpi_y", 72.0)) < NumOr(cfg, "min_dpi_text", 300.0)
    then Fail else Pass
  }

  /** `_score_category`: the rule for the category, with its config section; unknown categories pass. */
  function ScoreCategory(config: Value, category: string, m: Value): Status
  {
    var cfg := Section(config, category);
    if category == "completeness" then ScoreCompleteness(m, cfg)
    else if category == "foreign_objects" then ScoreForeignObjects(m)
    else if category == "sharpness" then ScoreSharpness(m, cfg)
    else if category == "exposure" then ScoreExposure(m, cfg)
    else if category == "contrast" then ScoreContrast(m, cfg)
    else if category == "geometry" then ScoreGeometry(m, cfg)
    else if category == "border_background" then ScoreBorderBackground(m, cfg)
    else if category == "noise" then ScoreNoise(m, cfg)
    else if category == "color" then ScoreColor(m, cfg)
    else if category == "format_integrity" then ScoreFormatIntegrity(m, cfg)
    else if category == "resolution" then ScoreResolution(m, cfg)
    else Pass
  }

  /** The categories that can only pass or fail, and those that can only pass or warn. */
  lemma CategoryStatusRange(config: Value, category: string, m: Value)
    ensures category in ["completeness", "format_integrity", "resolution"] ==> ScoreCategory(config, category, m) != Warn
    ensures category in ["foreign_objects", "color"] ==> ScoreCategory(config, category, m) != Fail
  {
  }

  /**
   * The sharpness cases of the source's tests, under the default `sharpness` section
   * (`Config.DefaultSections` shows it is the default configuration's), and the value
   * at the warn limit.
   */
  lemma SharpnessDefaultCases()
    ensures var cfg := Obj(Config.SharpnessDefaults);
      && ScoreSharpness(Obj([("laplacian_var", Num(200.0))]), cfg) == Pass
      && ScoreSharpness(Obj([("laplacian_var", Num(130.0))]), cfg) == Warn
      && ScoreSharpness(Obj([("laplacian_var", Num(120.0))]), cfg) == Warn
      && ScoreSharpness(Obj([("laplacian_var", Num(100.0))]), cfg) == Fail
  {
    GetIndex(Config.SharpnessDefaults, 1);
  }

  // ---------------------------------------------------------------------------
  // score_all_categories

  /**
   * The `category_status` dict after the loop over the first `|metrics|` entries:
   * each category the config has a key for gets its rule's status, others are skipped.
   */
  function CategoryStatus(config: Value, metrics: seq<(string, Value)>): seq<(string, Status)>
  {
    if metrics == [] then []
    else
      var last := metrics[|metrics| - 1];
      var prev := CategoryStatus(config, metrics[..|metrics| - 1]);
      if Has(config, last.0) then Put(prev, last.0, ScoreCategory(config, last.0, last.1)) else prev
  }

  /** The scored categories, in the metrics' order: those the config has a key for. */
  function ScoredKeys(config: Value, ks: seq<string>): (r: seq<string>)
    ensures forall k :: k in r <==> k in ks && Has(config, k)
  {
    if ks == [] then []
    else ScoredKeys(config, ks[..|ks| - 1]) + (if Has(config, ks[|ks| - 1]) then [ks[|ks| - 1]] else [])
  }

  /**
   * Only categories with a config key are scored, in the metrics' order, each with
   * its rule's status on its own metrics.
   */
  lemma {:induction false} CategoryStatusDict(config: Value, metrics: seq<(string, Value)>, k: string)
    requires UniqueKeys(metrics)
    ensures Keys(CategoryStatus(config, metrics)) == ScoredKeys(config, Keys(metrics))
    ensures Get(CategoryStatus(config, metrics), k) ==
      if k in Keys(metrics) && Has(config, k) then Some(ScoreCategory(config, k, Get(metrics, k).value)) else None
    decreases |metrics|
  {
    if metrics != [] {
      var n := |metrics| - 1;
      var init := metrics[..n];
      var last := metrics[n];
      assert metrics == init + [last];
      assert UniqueKeys(init);
      CategoryStatusDict(config, init, k);
      CategoryStatusDict(config, init, last.0);
      KeysAppend(init, last.0, last.1);
      assert Keys(metrics)[..n] == Keys(init);
      GetAppend(init, last.0, last.1, k);
      UniqueAfterPrefix(metrics, n);
      var prev := CategoryStatus(config, init);
      if Has(config, last.0) {
        assert last.0 !in Keys(prev);
        PutFresh(prev, last.0, ScoreCategory(config, last.0, last.1));
        KeysAppend(prev, last.0, ScoreCategory(config, last.0, last.1));
        GetAppend(prev, last.0, ScoreCategory(config, last.0, last.1), k);
      }
    }
  }

  /** In a dict, the last key occurs nowhere before it. */
  lemma UniqueAfterPrefix<V>(d: seq<(string, V)>, n: nat)
    requires UniqueKeys(d) && n < |d|
    ensures d[n].0 !in Keys(d[..n])
  {
    var t := d[..n];
    forall j | 0 <= j < |t|
      ensures Keys(t)[j] != d[n].0
    {
      KeysAt(t, j);
    }
  }

  /** `category_scores`: each scored category's number. */
  function ScoresOf(cs: seq<(string, Status)>): (r: seq<(string, real)>)
    ensures |r| == |cs|
    ensures forall i :: 0 <= i < |r| ==> r[i] == (cs[i].0, StatusToScore(cs[i].1))
  {
    if cs == [] then [] else [(cs[0].0, StatusToScore(cs[0].1))] + ScoresOf(cs[1..])
  }

  /** Assigning a status and assigning its score keep the two dicts in step. */
  lemma {:induction false} ScoresOfPut(cs: seq<(string, Status)>, k: string, s: Status)
    ensures ScoresOf(Put(cs, k, s)) == Put(ScoresOf(cs), k, StatusToScore(s))
  {
    if cs != [] && cs[0].0 != k {
      ScoresOfPut(cs[1..], k, s);
      assert Put(cs, k, s) == [cs[0]] + Put(cs[1..], k, s);
    }
  }

  // ---------------------------------------------------------------------------
  // _compute_global_score

  /** The three configurable entries of `category_weights`; every other category weighs 1.0. */
  datatype CategoryWeights = CategoryWeights(completeness: real, foreignObjects: real, sharpness: real)

  const ScoringKey: string := "scoring"
  const CompletenessCategory: string := "completeness"
  const ForeignObjectsCategory: string := "foreign_objects"
  const SharpnessCategory: string := "sharpness"

  /** `category_weights` as the scorer builds it from the `scoring` section. */
  function ConfiguredWeights(config: Value): CategoryWeights
  {
    var scoring := Section(config, ScoringKey);
    CategoryWeights(NumOr(scoring, "four_star_weight", 1.0), NumOr(scoring, "three_star_weight", 1.0),
                    NumOr(scoring, "two_star_weight", 1.0))
  }

  /** `category_weights.get(cat, 1.0)`. */
  function Weight(ws: CategoryWeights, category: string): real
  {
    if category == CompletenessCategory then ws.completeness
    else if category == ForeignObjectsCategory then ws.foreignObjects
    else if category == SharpnessCategory then ws.sharpness
    else 1.0
  }

  /** The configured weights are all non-negative. */
  predicate NonNegativeWeights(ws: CategoryWeights)
  {
    ws.completeness >= 0.0 && ws.foreignObjects >= 0.0 && ws.sharpness >= 0.0
  }

  lemma WeightNonNegative(ws: CategoryWeights, category: string)
    requires NonNegativeWeights(ws)
    ensures Weight(ws, category) >= 0.0
  {
  }

  /** The weight lookup as a function of the category. */
  function WeightOf(ws: CategoryWeights): string -> real
  {
    c => Weight(ws, c)
  }

  function TotalWeight(weight: string -> real, scores: seq<(string, real)>): real
  {
    if scores == [] then 0.0 else weight(scores[0].0) + TotalWeight(weight, scores[1..])
  }

  function WeightedSum(weight: string -> real, scores: seq<(string, real)>): real
  {
    if scores == [] then 0.0
    else scores[0].1 * weight(scores[0].0) + WeightedSum(weight, scores[1..])
  }

  /** The weighted mean of the scores, 0.0 when the weights add up to 0. */
  function WeightedScore(config: Value, scores: seq<(string, real)>): real
  {
    var weight := WeightOf(ConfiguredWeights(config));
    var total := TotalWeight(weight, scores);
    if total == 0.0 then 0.0 else WeightedSum(weight, scores) / total
  }

  /** With non-negative weights the total weight is non-negative. */
  lemma {:induction false} TotalWeightNonNegative(weight: string -> real, scores: seq<(string, real)>)
    requires forall c :: weight(c) >= 0.0
    ensures 0.0 <= TotalWeight(weight, scores)
  {
    if scores != [] {
      TotalWeightNonNegative(weight, scores[1..]);
    }
  }

  /** With non-negative weights and scores in [0, 1], the weighted sum is non-negative. */
  lemma {:induction false} WeightedSumNonNegative(weight: string -> real, scores: seq<(string, real)>)
    requires forall c :: weight(c) >= 0.0
    requires forall i :: 0 <= i < |scores| ==> 0.0 <= scores[i].1 <= 1.0
    ensures 0.0 <= WeightedSum(weight, scores)
  {
    if scores != [] {
      var rest := scores[1..];
      assert forall i :: 0 <= i < |rest| ==> rest[i] == scores[i + 1];
      WeightedSumNonNegative(weight, rest);
      ProductBounds(scores[0].1, weight(scores[0].0));
    }
  }

  /** With non-negative weights and scores in [0, 1], the weighted sum is at most the total weight. */
  lemma {:induction false} WeightedSumBounds(weight: string -> real, scores: seq<(string, real)>)
    requires forall c :: weight(c) >= 0.0
    requires forall i :: 0 <= i < |scores| ==> 0.0 <= scores[i].1 <= 1.0
    ensures WeightedSum(weight, scores) <= TotalWeight(weight, scores)
  {
    if scores != [] {
      var rest := scores[1..];
      assert forall i :: 0 <= i < |rest| ==> rest[i] == scores[i + 1];
      WeightedSumBounds(weight, rest);
      ProductBounds(scores[0].1, weight(scores[0].0));
    }
  }

  /** A score in [0, 1] times a non-negative weight lies between 0 and the weight. */
  lemma ProductBounds(x: real, w: real)
    requires 0.0 <= x <= 1.0 && 0.0 <= w
    ensures 0.0 <= x * w <= w
  {
    assert (1.0 - x) * w >= 0.0;
    assert (1.0 - x) * w == w - x * w;
  }

  /** The global score lies in [0, 1] whenever the configured weights are non-negative. */
  lemma WeightedScoreBounds(config: Value, cs: seq<(string, Status)>)
    requires NonNegativeWeights(ConfiguredWeights(config))
    ensures 0.0 <= WeightedScore(config, ScoresOf(cs)) <= 1.0
  {
    var ws := ConfiguredWeights(config);
    var weight := WeightOf(ws);
    forall c
      ensures weight(c) >= 0.0
    {
      WeightNonNegative(ws, c);
    }
    var scores := ScoresOf(cs);
    WeightedSumNonNegative(weight, scores);
    WeightedSumBounds(weight, scores);
    TotalWeightNonNegative(weight, scores);
    var total := TotalWeight(weight, scores);
    if total != 0.0 {
      QuotientBounds(WeightedSum(weight, scores), total);
    }
  }

  lemma QuotientBounds(sum: real, total: real)
    requires 0.0 <= sum <= total && total != 0.0
    ensures 0.0 <= sum / total <= 1.0
  {
    assert sum / total * total == sum;
  }

  /** Every category scored PASS gives the full score. */
  lemma {:induction false} AllPassFullScore(weight: string -> real, cs: seq<(string, Status)>)
    requires forall i :: 0 <= i < |cs| ==> cs[i].1 == Pass
    ensures WeightedSum(weight, ScoresOf(cs)) == TotalWeight(weight, ScoresOf(cs))
  {
    if cs != [] {
      AllPassFullScore(weight, cs[1..]);
      assert ScoresOf(cs)[1..] == ScoresOf(cs[1..]);
    }
  }

  /** Any of completeness, border_background, resolution or geometry failing. */
  predicate CriticalFail(cs: seq<(string, Status)>)
  {
    || Get(cs, "completeness") == Some(Fail)
    || Get(cs, "border_background") == Some(Fail)
    || Get(cs, "resolution") == Some(Fail)
    || Get(cs, "geometry") == Some(Fail)
  }

  /** The star rating and global status. */
  function Stars(critical: bool, score: real, passThreshold: real, warnThreshold: real): (int, Status)
  {
    if critical then (1, Fail)
    else if score >= 0.90 then (4, Pass)
    else if score >= passThreshold then (3, Pass)
    else if score >= warnThreshold then (2, Warn)
    else (1, Fail)
  }

  /** Stars and status agree: 3 or 4 stars pass, 2 warn, 1 fails; a critical failure is always 1 star. */
  lemma StarsAgreeWithStatus(critical: bool, score: real, passThreshold: real, warnThreshold: real)
    ensures var (stars, status) := Stars(critical, score, passThreshold, warnThreshold);
      && 1 <= stars <= 4
      && (status == Pass <==> stars >= 3)
      && (status == Warn <==> stars == 2)
      && (status == Fail <==> stars == 1)
      && (critical ==> stars == 1)
  {
  }

  /** A higher score never earns fewer stars, whatever the thresholds. */
  lemma StarsMonotone(critical: bool, x: real, y: real, passThreshold: real, warnThreshold: real)
    requires x <= y
    ensures Stars(critical, x, passThreshold, warnThreshold).0 <= Stars(critical, y, passThreshold, warnThreshold).0
  {
  }

  /** The bands are inclusive lower bounds. */
  lemma StarsAtThresholds(passThreshold: real, warnThreshold: real)
    requires warnThreshold < passThreshold < 0.90
    ensures Stars(false, 0.90, passThreshold, warnThreshold) == (4, Pass)
    ensures Stars(false, passThreshold, passThreshold, warnThreshold) == (3, Pass)
    ensures Stars(false, warnThreshold, passThreshold, warnThreshold) == (2, Warn)
  {
  }

  datatype GlobalResult = GlobalResult(score: real, stars: int, status: Status, criticalFail: bool, actions: seq<string>)

  /** `_compute_global_score`. */
  function GlobalScore(config: Value, scores: seq<(string, real)>, cs: seq<(string, Status)>): (g: GlobalResult)
    ensures g.criticalFail == CriticalFail(cs)
    ensures g.criticalFail ==> g.stars == 1 && g.status == Fail
    ensures g.actions == ActionItems(cs)
  {
    var scoring := Section(config, "scoring");
    var score := WeightedScore(config, scores);
    var band := Stars(CriticalFail(cs), score,
                      NumOr(scoring, "pass_score_threshold", 0.80), NumOr(scoring, "warn_score_threshold", 0.65));
    GlobalResult(score, band.0, band.1, CriticalFail(cs), ActionItems(cs))
  }

  // ---------------------------------------------------------------------------
  // Action items

  const FailMark: string := "\U{274C} "
  const WarnMark: string := "\U{26A0}\U{FE0F} "

  /** `action_map.get(category, f"Review {category} settings")`. */
  function BaseAction(category: string): string
  {
    if category == "sharpness" then "Retake photo with better focus or use tripod"
    else if category == "exposure" then "Adjust lighting or camera exposure settings"
    else if category == "contrast" then "Improve lighting conditions or post-process contrast"
    else if category == "geometry" then "Straighten document or adjust camera angle"
    else if category == "border_background" then "Ensure black background and proper margins"
    else if category == "noise" then "Use lower ISO setting or better lighting"
    else if category == "resolution" then "Scan/photograph at higher DPI/resolution"
    else if category == "completeness" then "Ensure full document is captured with margins"
    else if category == "foreign_objects" then "Remove hands, clips, or other objects from frame"
    else "Review " + category + " settings"
  }

  /** `_get_category_action` for a warn or fail status. */
  function CategoryAction(category: string, s: Status): string
  {
    (if s == Fail then FailMark else WarnMark) + BaseAction(category)
  }

  /** `_generate_action_items` over the first `|cs|` categories: one action per warn/fail category. */
  function ActionItems(cs: seq<(string, Status)>): (r: seq<string>)
    ensures |r| <= |cs|
  {
    if cs == [] then []
    else
      var last := cs[|cs| - 1];
      ActionItems(cs[..|cs| - 1]) + (if last.1 != Pass then [CategoryAction(last.0, last.1)] else [])
  }

  /** The warn/fail entries, in order. */
  function Flagged(cs: seq<(string, Status)>): (r: seq<(string, Status)>)
    ensures forall i :: 0 <= i < |r| ==> r[i].1 != Pass
  {
    if cs == [] then []
    else
      var last := cs[|cs| - 1];
      Flagged(cs[..|cs| - 1]) + (if last.1 != Pass then [last] else [])
  }

  /**
   * Exactly one action per flagged category, in order: fail actions carry the cross
   * mark, warn actions the warning sign, each followed by the category's base action.
   */
  lemma {:induction false} ActionsMatchFlagged(cs: seq<(string, Status)>)
    ensures |ActionItems(cs)| == |Flagged(cs)|
    ensures forall i :: 0 <= i < |Flagged(cs)| ==>
      ActionItems(cs)[i] == (if Flagged(cs)[i].1 == Fail then FailMark else WarnMark) + BaseAction(Flagged(cs)[i].0)
    decreases |cs|
  {
    if cs != [] {
      ActionsMatchFlagged(cs[..|cs| - 1]);
    }
  }

  /** No action at all exactly when every scored category passed. */
  lemma {:induction false} NoActionsIffAllPass(cs: seq<(string, Status)>)
    ensures ActionItems(cs) == [] <==> forall i :: 0 <= i < |cs| ==> cs[i].1 == Pass
    decreases |cs|
  {
    if cs != [] {
      var init := cs[..|cs| - 1];
      NoActionsIffAllPass(init);
      assert forall i :: 0 <= i < |init| ==> cs[i] == init[i];
    }
  }

  /** The append loop of `_generate_action_items`. */
  method GenerateActionItems(cs: seq<(string, Status)>) returns (actions: seq<string>)
    ensures actions == ActionItems(cs)
  {
    actions := [];
    var i := 0;
    while i < |cs|
      invariant 0 <= i <= |cs|
      invariant actions == ActionItems(cs[..i])
    {
      assert cs[..i + 1][..i] == cs[..i];
      if cs[i].1 == Warn || cs[i].1 == Fail {
        actions := actions + [CategoryAction(cs[i].0, cs[i].1)];
      }
      i := i + 1;
    }
    assert cs[..i] == cs;
  }

  // ---------------------------------------------------------------------------
  // The whole scorer

  datatype ScoreReport = ScoreReport(categoryStatus: seq<(string, Status)>, global: GlobalResult)

  /** `score_all_categories`: the loop over the metric categories, then the global result. */
  method ScoreAllCategories(config: Value, metrics: seq<(string, Value)>) returns (report: ScoreReport)
    ensures report.categoryStatus == CategoryStatus(config, metrics)
    ensures report.global == GlobalScore(config, ScoresOf(report.categoryStatus), report.categoryStatus)
  {
    var status: seq<(string, Status)> := [];
    var scores: seq<(string, real)> := [];
    var i := 0;
    while i < |metrics|
      invariant 0 <= i <= |metrics|
      invariant status == CategoryStatus(config, metrics[..i])
      invariant scores == ScoresOf(status)
    {
      var category := metrics[i].0;
      assert metrics[..i + 1][..i] == metrics[..i];
      if Has(config, category) {
        var s := ScoreCategory(config, category, metrics[i].1);
        ScoresOfPut(status, category, s);
        status := Put(status, category, s);
        scores := Put(scores, category, StatusToScore(s));
      }
      i := i + 1;
    }
    assert metrics[..i] == metrics;
    var actions := GenerateActionItems(status);
    var scoring := Section(config, "scoring");
    var score := WeightedScore(config, scores);
    var band := Stars(CriticalFail(status), score,
                      NumOr(scoring, "pass_score_threshold", 0.80), NumOr(scoring, "warn_score_threshold", 0.65));
    report := ScoreReport(status, GlobalResult(score, band.0, band.1, CriticalFail(status), actions));
  }
}
