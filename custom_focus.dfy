/**
 * The enhanced focus detector: it reads the sharpness metrics of an analyzer
 * report, classifies the focus into five levels, lists the focus issues, rates
 * its confidence, recommends what to do, and counts levels over a batch.
 *
 * The analyzer run behind each path reaches the model as a function from the
 * path to the report dict it returns, or to the message of what it raised.
 */
module CustomFocus {
  import opened Values
  import BaseMetrics
  import FormatIntegrity
  import Stats
  import Analyzer

  // ---------------------------------------------------------------------------
  // Levels and thresholds

  datatype FocusLevel = Excellent | Good | Acceptable | Poor | Unusable

  /** The level's name in the report. */
  function LevelName(l: FocusLevel): string
  {
    match l
    case Excellent => "excellent"
    case Good => "good"
    case Acceptable => "acceptable"
    case Poor => "poor"
    case Unusable => "unusable"
  }

  const LevelNames: seq<string> := ["excellent", "good", "acceptable", "poor", "unusable"]

  /** The level's place in the order unusable < poor < acceptable < good < excellent. */
  function Rank(l: FocusLevel): nat
  {
    match l
    case Unusable => 0
    case Poor => 1
    case Acceptable => 2
    case Good => 3
    case Excellent => 4
  }

  /** The levels the detector reports as "failed for out of focus". */
  predicate OutOfFocus(l: FocusLevel)
  {
    l == Poor || l == Unusable
  }

  /** The numbers `_classify_focus_level` and `_identify_focus_issues` read from the `sharpness` section. */
  datatype Thresholds = Thresholds(
    minLaplacian: real,
    warnLaplacian: real,
    failLaplacian: real,
    criticalLaplacian: real,
    minEdgeDensity: real,
    minHighFreqEnergy: real)

  /** The `sharpness` thresholds of `_get_default_focus_config`. */
  const DefaultThresholds: Thresholds := Thresholds(200.0, 120.0, 80.0, 50.0, 0.015, 0.001)

  // ---------------------------------------------------------------------------
  // _classify_focus_level

  /** The Laplacian variance's share of the criteria score. */
  function LaplacianPoints(t: Thresholds, lap: real): (p: nat)
    ensures p <= 3
    ensures p == 3 <==> lap >= t.minLaplacian
    ensures p == 0 <==> lap < t.minLaplacian && lap < t.warnLaplacian && lap < t.failLaplacian
  {
    if lap >= t.minLaplacian then 3
    else if lap >= t.warnLaplacian then 2
    else if lap >= t.failLaplacian then 1
    else 0
  }

  /** The criteria score: Laplacian points, one point for edge density, one for high-frequency energy. */
  function CriteriaScore(t: Thresholds, lap: real, edge: real, hf: real): (s: nat)
    ensures s <= 5
  {
    LaplacianPoints(t, lap) + (if edge >= t.minEdgeDensity then 1 else 0)
    + (if hf >= t.minHighFreqEnergy then 1 else 0)
  }

  /** The level a criteria score earns. */
  function LevelFor(score: nat): (l: FocusLevel)
    ensures Rank(l) == IMin(score, 4)
  {
    if score >= 4 then Excellent
    else if score >= 3 then Good
    else if score >= 2 then Acceptable
    else if score >= 1 then Poor
    else Unusable
  }

  /** The level `_classify_focus_level` assigns. */
  function FocusLevelOf(t: Thresholds, lap: real, edge: real, hf: real): FocusLevel
  {
    LevelFor(CriteriaScore(t, lap, edge, hf))
  }

  /**
   * `_classify_focus_level`: the criteria score is accumulated criterion by
   * criterion, then mapped to a level; the local mean it is passed plays no part.
   */
  method ClassifyFocusLevel(t: Thresholds, lap: real, edge: real, hf: real, localMean: real)
    returns (level: FocusLevel)
    ensures level == FocusLevelOf(t, lap, edge, hf)
    ensures Rank(level) == IMin(CriteriaScore(t, lap, edge, hf), 4)
  {
    var criteria := 0;
    if lap >= t.minLaplacian {
      criteria := criteria + 3;
    } else if lap >= t.warnLaplacian {
      criteria := criteria + 2;
    } else if lap >= t.failLaplacian {
      criteria := criteria + 1;
    }
    if edge >= t.minEdgeDensity {
      criteria := criteria + 1;
    }
    if hf >= t.minHighFreqEnergy {
      criteria := criteria + 1;
    }
    if criteria >= 4 {
      level := Excellent;
    } else if criteria >= 3 {
      level := Good;
    } else if criteria >= 2 {
      level := Acceptable;
    } else if criteria >= 1 {
      level := Poor;
    } else {
      level := Unusable;
    }
  }

  /** Each level corresponds to one band of the criteria score. */
  lemma LevelBands(t: Thresholds, lap: real, edge: real, hf: real)
    ensures var s, l := CriteriaScore(t, lap, edge, hf), FocusLevelOf(t, lap, edge, hf);
      && (l == Excellent <==> s >= 4)
      && (l == Good <==> s == 3)
      && (l == Acceptable <==> s == 2)
      && (l == Poor <==> s == 1)
      && (l == Unusable <==> s == 0)
  {
  }

  /** Out of focus exactly when the criteria score is at most 1. */
  lemma OutOfFocusBand(t: Thresholds, lap: real, edge: real, hf: real)
    ensures OutOfFocus(FocusLevelOf(t, lap, edge, hf)) <==> CriteriaScore(t, lap, edge, hf) <= 1
  {
  }

  /** Unusable exactly when every criterion misses. */
  lemma UnusableMeansAllMiss(t: Thresholds, lap: real, edge: real, hf: real)
    ensures FocusLevelOf(t, lap, edge, hf) == Unusable
            <==> lap < t.minLaplacian && lap < t.warnLaplacian && lap < t.failLaplacian
                 && edge < t.minEdgeDensity && hf < t.minHighFreqEnergy
  {
  }

  lemma ScoreMono(t: Thresholds, lap: real, edge: real, hf: real, lap': real, edge': real, hf': real)
    requires lap <= lap' && edge <= edge' && hf <= hf'
    ensures CriteriaScore(t, lap, edge, hf) <= CriteriaScore(t, lap', edge', hf')
  {
  }

  /** Raising the Laplacian variance, the edge density or the high-frequency energy never lowers the level. */
  lemma LevelMono(t: Thresholds, lap: real, edge: real, hf: real, lap': real, edge': real, hf': real)
    requires lap <= lap' && edge <= edge' && hf <= hf'
    ensures Rank(FocusLevelOf(t, lap, edge, hf)) <= Rank(FocusLevelOf(t, lap', edge', hf'))
  {
    ScoreMono(t, lap, edge, hf, lap', edge', hf');
  }

  /**
   * A Laplacian variance below `min_laplacian_variance` still reaches excellent
   * when edges and high frequencies are present, and one above it reaches only
   * good without them: the `focus_classification` minima play no part.
   */
  lemma ExcellentBelowMinimum()
    ensures FocusLevelOf(DefaultThresholds, 150.0, 0.02, 0.002) == Excellent
    ensures FocusLevelOf(DefaultThresholds, 350.0, 0.0, 0.0) == Good
  {
  }

  // ---------------------------------------------------------------------------
  // _identify_focus_issues

  const SevereBlur: string := "Severely out of focus - major blur detected"
  const NoticeableBlur: string := "Out of focus - noticeable blur"
  const SlightlySoft: string := "Slightly soft focus - minor blur"
  const VeryLowEdges: string := "Very low edge content - possible motion blur or extreme defocus"
  const LowEdges: string := "Low edge content - soft focus or low contrast"
  const InconsistentFocus: string := "Inconsistent focus across image - focus on wrong area"
  const UniformBlur: string := "Uniform blur - camera shake or motion blur"
  const WeakGradients: string := "Very weak gradients - severe focus or contrast issues"

  /** The issue texts about the Laplacian variance. */
  predicate LaplacianIssue(s: string)
  {
    s == SevereBlur || s == NoticeableBlur || s == SlightlySoft
  }

  function LaplacianIssues(t: Thresholds, lap: real): seq<string>
  {
    if lap < t.criticalLaplacian then [SevereBlur]
    else if lap < t.failLaplacian then [NoticeableBlur]
    else if lap < t.warnLaplacian then [SlightlySoft]
    else []
  }

  function EdgeIssues(t: Thresholds, edge: real): seq<string>
  {
    if edge < t.minEdgeDensity * 0.5 then [VeryLowEdges]
    else if edge < t.minEdgeDensity then [LowEdges]
    else []
  }

  function VariationIssues(localStd: real): seq<string>
  {
    if localStd > 5000.0 then [InconsistentFocus]
    else if localStd < 100.0 then [UniformBlur]
    else []
  }

  function GradientIssues(gradient: real): seq<string>
  {
    if gradient < 5.0 then [WeakGradients] else []
  }

  /** `_identify_focus_issues`: the Laplacian, edge, variation and gradient issues, in that order. */
  function FocusIssues(t: Thresholds, lap: real, edge: real, localStd: real, gradient: real): seq<string>
  {
    LaplacianIssues(t, lap) + EdgeIssues(t, edge) + VariationIssues(localStd) + GradientIssues(gradient)
  }

  /** No issue about edges, variation or gradients reads like a Laplacian issue. */
  lemma OtherIssuesDiffer(t: Thresholds, edge: real, localStd: real, gradient: real)
    ensures forall s :: s in EdgeIssues(t, edge) + VariationIssues(localStd) + GradientIssues(gradient)
                        ==> !LaplacianIssue(s)
  {
    assert |SevereBlur| == 43 && |NoticeableBlur| == 30 && |SlightlySoft| == 32;
    assert |VeryLowEdges| == 63 && |LowEdges| == 45 && |InconsistentFocus| == 53;
    assert |UniformBlur| == 42 && |WeakGradients| == 53;
  }

  /**
   * At most four issues, at most one of them about the Laplacian variance, and
   * that one exactly when the variance is below `warn_laplacian_variance` (or
   * one of the two lower thresholds); the severe one exactly below the critical one.
   */
  lemma IssueFacts(t: Thresholds, lap: real, edge: real, localStd: real, gradient: real)
    ensures var issues := FocusIssues(t, lap, edge, localStd, gradient);
      && |issues| <= 4
      && ((exists i :: 0 <= i < |issues| && LaplacianIssue(issues[i]))
          <==> (lap < t.criticalLaplacian || lap < t.failLaplacian || lap < t.warnLaplacian))
      && (|issues| > 0 && LaplacianIssue(issues[0])) == (LaplacianIssues(t, lap) != [])
      && (forall i :: 1 <= i < |issues| ==> !LaplacianIssue(issues[i]))
      && (SevereBlur in issues <==> lap < t.criticalLaplacian)
  {
    var issues := FocusIssues(t, lap, edge, localStd, gradient);
    var rest := EdgeIssues(t, edge) + VariationIssues(localStd) + GradientIssues(gradient);
    assert issues == LaplacianIssues(t, lap) + rest;
    OtherIssuesDiffer(t, edge, localStd, gradient);
    var l := LaplacianIssues(t, lap);
    assert forall i :: |l| <= i < |issues| ==> issues[i] == rest[i - |l|];
    assert forall i :: |l| <= i < |issues| ==> issues[i] in rest;
    if lap < t.criticalLaplacian || lap < t.failLaplacian || lap < t.warnLaplacian {
      assert LaplacianIssue(issues[0]);
    }
    assert SevereBlur !in rest by {
      assert !LaplacianIssue(SevereBlur) ==> false;
    }
  }

  // ---------------------------------------------------------------------------
  // _calculate_focus_confidence

  function ConfidenceFactors(lap: real, edge: real, hf: real): (f: seq<real>)
    ensures |f| == 3
  {
    [ if lap > 300.0 then 0.9 else if lap > 150.0 then 0.8 else if lap > 80.0 then 0.7 else 0.6,
      if edge > 0.02 then 0.9 else if edge > 0.015 then 0.8 else 0.7,
      if hf > 0.002 then 0.9 else 0.8 ]
  }

  /** `_calculate_focus_confidence`: the mean of the three factors. */
  function Confidence(lap: real, edge: real, hf: real): real
  {
    Stats.Mean(ConfidenceFactors(lap, edge, hf))
  }

  /**
   * The confidence lies in [0.7, 0.9]: the lowest factors 0.6, 0.7 and 0.8 average
   * to 0.7 and every factor is at most 0.9.
   */
  lemma ConfidenceRange(lap: real, edge: real, hf: real)
    ensures 0.7 <= Confidence(lap, edge, hf) <= 0.9
  {
    var f := ConfidenceFactors(lap, edge, hf);
    assert f[..2][..1] == f[..1] && f[..1][..0] == [];
    assert Values.Sum(f[..1]) == f[0];
    assert Values.Sum(f[..2]) == f[0] + f[1];
    assert Values.Sum(f) == f[0] + f[1] + f[2];
  }

  // ---------------------------------------------------------------------------
  // _generate_focus_recommendations

  const CriticalLine: string := "\U{1F534} CRITICAL: Image failed for OUT OF FOCUS - retake required"
  const AutoFocusLine: string := "\U{1F4F8} Use auto-focus or tap screen to focus on document"
  const DistanceLine: string := "\U{1F3AF} Ensure proper distance - too close causes focus issues"
  const TripodLine: string := "\U{1F4F1} Use tripod or stable surface to reduce camera shake"
  const WarningLine: string := "\U{1F7E1} WARNING: Image is slightly soft - consider retaking for better quality"
  const FineTuneLine: string := "\U{1F527} Fine-tune focus or move slightly closer/further"
  const ShutterLine: string := "\U{26A1} Use faster shutter speed or better stabilization"
  const SteadyLine: string := "\U{1F4F1} Hold camera steady or use timer/remote"
  const CenterLine: string := "\U{1F3AF} Focus on center of document, not edges or background"
  const LightingLine: string := "\U{1F4A1} Improve lighting to enhance detail visibility"
  const LowConfidenceLine: string := "\U{26A0}\U{FE0F} Focus assessment has lower confidence - verify manually"

  /** The lines a level calls for. */
  function LevelRecommendations(level: FocusLevel): seq<string>
  {
    if OutOfFocus(level) then [CriticalLine, AutoFocusLine, DistanceLine, TripodLine]
    else if level == Acceptable then [WarningLine, FineTuneLine]
    else []
  }

  /** `needle in issue.lower()`. */
  predicate Mentions(issue: string, needle: string)
  {
    FormatIntegrity.IsSubstring(needle, BaseMetrics.Lower(issue))
  }

  const MotionBlur: string := "motion blur"
  const CameraShake: string := "camera shake"
  const Inconsistent: string := "inconsistent focus"
  const LowContrast: string := "low contrast"

  /** The line an issue calls for, by the first phrase its lower-cased text contains. */
  function IssueRecommendation(issue: string): Option<string>
  {
    if Mentions(issue, MotionBlur) then Some(ShutterLine)
    else if Mentions(issue, CameraShake) then Some(SteadyLine)
    else if Mentions(issue, Inconsistent) then Some(CenterLine)
    else if Mentions(issue, LowContrast) then Some(LightingLine)
    else None
  }

  /** The issue lines for a list of issues, in the issues' order. */
  function IssueRecommendations(issues: seq<string>): (r: seq<string>)
    ensures |r| <= |issues|
  {
    if issues == [] then []
    else
      var n := |issues| - 1;
      IssueRecommendations(issues[..n])
      + (match IssueRecommendation(issues[n]) case Some(line) => [line] case None => [])
  }

  /** What `_generate_focus_recommendations` returns. */
  function FocusRecommendations(level: FocusLevel, issues: seq<string>, confidence: real): seq<string>
  {
    LevelRecommendations(level) + IssueRecommendations(issues)
    + (if confidence < 0.7 then [LowConfidenceLine] else [])
  }

  /** The loop of `_generate_focus_recommendations` over the issues. */
  method IssueLines(issues: seq<string>) returns (lines: seq<string>)
    ensures lines == IssueRecommendations(issues)
  {
    lines := [];
    var i := 0;
    while i < |issues|
      invariant 0 <= i <= |issues|
      invariant lines == IssueRecommendations(issues[..i])
    {
      assert issues[..i + 1][..i] == issues[..i];
      var line := IssueRecommendation(issues[i]);
      if line.Some? {
        lines := lines + [line.value];
      }
      i := i + 1;
    }
    assert issues[..i] == issues;
  }

  /** `_generate_focus_recommendations`: the level's lines, one line per issue that calls for one, the confidence line. */
  method GenerateFocusRecommendations(level: FocusLevel, issues: seq<string>, confidence: real)
    returns (recommendations: seq<string>)
    ensures recommendations == FocusRecommendations(level, issues, confidence)
  {
    recommendations := LevelRecommendations(level);
    var lines := IssueLines(issues);
    recommendations := recommendations + lines;
    if confidence < 0.7 {
      recommendations := recommendations + [LowConfidenceLine];
    }
  }

  /**
   * Out of focus: the CRITICAL line leads, followed by the three retake hints.
   * Acceptable: the WARNING line leads, followed by the fine-tune hint.
   * Better levels get no level line.
   */
  lemma RecommendationsLead(level: FocusLevel, issues: seq<string>, confidence: real)
    ensures var r := FocusRecommendations(level, issues, confidence);
      && (OutOfFocus(level) ==> |r| >= 4 && r[..4] == [CriticalLine, AutoFocusLine, DistanceLine, TripodLine])
      && (level == Acceptable ==> |r| >= 2 && r[0] == WarningLine && r[1] == FineTuneLine)
      && (Rank(level) >= 3 ==> r == IssueRecommendations(issues) + (if confidence < 0.7 then [LowConfidenceLine] else []))
  {
    var r := FocusRecommendations(level, issues, confidence);
    var tail := IssueRecommendations(issues) + (if confidence < 0.7 then [LowConfidenceLine] else []);
    assert r == LevelRecommendations(level) + tail;
    if OutOfFocus(level) {
      assert r[..4] == LevelRecommendations(level);
    }
  }

  /**
   * Over the reals the confidence is never below 0.7, so the low-confidence line
   * never follows the detector's own confidence.
   */
  lemma NoLowConfidenceLine(level: FocusLevel, issues: seq<string>, lap: real, edge: real, hf: real)
    ensures FocusRecommendations(level, issues, Confidence(lap, edge, hf))
            == LevelRecommendations(level) + IssueRecommendations(issues)
  {
    ConfidenceRange(lap, edge, hf);
  }

  /**
   * "Uniform blur" names both camera shake and motion blur; the motion-blur test
   * comes first, so the issue gets the shutter line, not the steady-hands line.
   */
  lemma UniformBlurGetsShutterLine()
    ensures IssueRecommendation(UniformBlur) == Some(ShutterLine)
  {
    var low := BaseMetrics.Lower(UniformBlur);
    assert FormatIntegrity.Window(low, 31, 11) == MotionBlur;
  }

  // ---------------------------------------------------------------------------
  // _analyze_focus_details

  /** The sharpness numbers the detector reads from a report. */
  datatype FocusMetrics = FocusMetrics(
    laplacianVar: real,
    edgeDensity: real,
    gradientMean: real,
    highFreqEnergy: real,
    localMean: real,
    localStd: real)

  datatype FocusAnalysis = FocusAnalysis(
    level: FocusLevel,
    focusScore: real,
    issues: seq<string>,
    confidence: real,
    breakdown: FocusMetrics)

  const MetricsKey: string := "metrics"
  const GlobalKey: string := "global"
  const ScoreKey: string := "score"
  const StatusKey: string := "status"

  /** `d[k]`: the value, or the KeyError's message. */
  function Index(d: Value, k: string): (r: Result<Value>)
    ensures r.Ok? <==> Lookup(d, k).Some?
  {
    match Lookup(d, k)
    case Some(v) => Ok(v)
    case None => Err("'" + k + "'")
  }

  const SharpnessKey: string := "sharpness"
  const LaplacianKey: string := "laplacian_var"
  const EdgeDensityKey: string := "edge_density"
  const GradientKey: string := "gradient_magnitude_mean"
  const FrequencyKey: string := "frequency_metrics"
  const HighFreqKey: string := "high_freq_energy"
  const LocalKey: string := "local_sharpness"

  /** The sharpness numbers of `results['metrics']`, each 0.0 when missing. */
  function MetricsOf(metrics: Value): FocusMetrics
  {
    var s := Section(metrics, SharpnessKey);
    var local := Section(s, LocalKey);
    FocusMetrics(
      NumOr(s, LaplacianKey, 0.0),
      NumOr(s, EdgeDensityKey, 0.0),
      NumOr(s, GradientKey, 0.0),
      NumOr(Section(s, FrequencyKey), HighFreqKey, 0.0),
      NumOr(local, "mean", 0.0),
      NumOr(local, "std", 0.0))
  }

  /** `_analyze_focus_details` on the sharpness numbers. */
  function Details(t: Thresholds, m: FocusMetrics): (a: FocusAnalysis)
  {
    FocusAnalysis(
      FocusLevelOf(t, m.laplacianVar, m.edgeDensity, m.highFreqEnergy),
      m.laplacianVar,
      FocusIssues(t, m.laplacianVar, m.edgeDensity, m.localStd, m.gradientMean),
      Confidence(m.laplacianVar, m.edgeDensity, m.highFreqEnergy),
      m)
  }

  /** `_analyze_focus_details` followed by `_generate_focus_recommendations`, on one report. */
  function FocusQuality(t: Thresholds, results: Value): Result<(FocusAnalysis, seq<string>)>
  {
    match Index(results, MetricsKey)
    case Err(msg) => Err(msg)
    case Ok(metrics) =>
      var a := Details(t, MetricsOf(metrics));
      Ok((a, FocusRecommendations(a.level, a.issues, a.confidence)))
  }

  /** The focus part of one report: the level of its numbers, the Laplacian as score, a confidence in [0.7, 0.9]. */
  lemma DetailsFacts(t: Thresholds, m: FocusMetrics)
    ensures var a := Details(t, m);
      && a.focusScore == m.laplacianVar
      && Rank(a.level) == IMin(CriteriaScore(t, m.laplacianVar, m.edgeDensity, m.highFreqEnergy), 4)
      && 0.7 <= a.confidence <= 0.9
      && |a.issues| <= 4
  {
    ConfidenceRange(m.laplacianVar, m.edgeDensity, m.highFreqEnergy);
    IssueFacts(t, m.laplacianVar, m.edgeDensity, m.localStd, m.gradientMean);
  }

  /** A report without sharpness numbers reads all zeros: unusable, with the severe-blur issue leading. */
  lemma MissingSharpnessIsUnusable(t: Thresholds, metrics: Value)
    requires Lookup(metrics, SharpnessKey).None?
    requires t.failLaplacian > 0.0 && t.minEdgeDensity > 0.0 && t.minHighFreqEnergy > 0.0
    requires t.criticalLaplacian > 0.0 && t.warnLaplacian > 0.0 && t.minLaplacian > 0.0
    ensures var a := Details(t, MetricsOf(metrics));
      a.level == Unusable && a.focusScore == 0.0 && |a.issues| > 0 && a.issues[0] == SevereBlur
  {
  }

  /**
   * `analyze_focus_quality` without printing: the analyzer's report (or what it
   * raised), then the focus details and recommendations.
   */
  method AnalyzeFocusQuality(t: Thresholds, analyze: string -> Result<Value>, path: string)
    returns (r: Result<(FocusAnalysis, seq<string>)>, results: Value)
    ensures analyze(path).Ok? ==> results == analyze(path).value
    ensures r == match analyze(path) case Err(msg) => Err(msg) case Ok(v) => FocusQuality(t, v)
  {
    var outcome := analyze(path);
    if outcome.Err? {
      return Err(outcome.message), Null;
    }
    results := outcome.value;
    var metrics := Lookup(results, MetricsKey);
    if metrics.None? {
      return Err("'" + MetricsKey + "'"), results;
    }
    var m := MetricsOf(metrics.value);
    var level := ClassifyFocusLevel(t, m.laplacianVar, m.edgeDensity, m.highFreqEnergy, m.localMean);
    var issues := FocusIssues(t, m.laplacianVar, m.edgeDensity, m.localStd, m.gradientMean);
    var confidence := Confidence(m.laplacianVar, m.edgeDensity, m.highFreqEnergy);
    var a := FocusAnalysis(level, m.laplacianVar, issues, confidence, m);
    var recommendations := GenerateFocusRecommendations(level, issues, confidence);
    r := Ok((a, recommendations));
  }

  // ---------------------------------------------------------------------------
  // batch_analyze_focus

  /** `Path(p).name`: the last component, trailing slashes ignored. */
  function FileName(p: string): string
  {
    Analyzer.Basename(Analyzer.RStripSlashes(p))
  }

  /** One entry of `detailed_results`. */
  datatype FocusRecord =
    | Summary(imagePath: string, filename: string, level: FocusLevel, focusScore: real,
              overallScore: Value, overallStatus: Value, issues: seq<string>, recommendations: seq<string>)
    | Error(imagePath: string, filename: string, error: string)

  /** The record of a report once its focus part is known, or of what raised. */
  function RecordAfter(path: string, results: Value, fq: Result<(FocusAnalysis, seq<string>)>): FocusRecord
  {
    match fq
    case Err(msg) => Error(path, FileName(path), msg)
    case Ok(fq) =>
      match Index(results, GlobalKey)
      case Err(msg) => Error(path, FileName(path), msg)
      case Ok(global) =>
        match Index(global, ScoreKey)
        case Err(msg) => Error(path, FileName(path), msg)
        case Ok(score) =>
          match Index(global, StatusKey)
          case Err(msg) => Error(path, FileName(path), msg)
          case Ok(status) =>
            Summary(path, FileName(path), fq.0.level, fq.0.focusScore, score, status, fq.0.issues, fq.1)
  }

  /** The record of one path: its summary, or the message of the first thing that raised. */
  function RecordFor(t: Thresholds, path: string, outcome: Result<Value>): FocusRecord
  {
    match outcome
    case Err(msg) => Error(path, FileName(path), msg)
    case Ok(results) => RecordAfter(path, results, FocusQuality(t, results))
  }

  /** The record `batch_analyze_focus` makes of each path. */
  function Recorder(t: Thresholds, analyze: string -> Result<Value>): string -> FocusRecord
  {
    p => RecordFor(t, p, analyze(p))
  }

  /** The `focus_summary` counters. */
  datatype Dist = Dist(excellent: nat, good: nat, acceptable: nat, poor: nat, unusable: nat)

  function Count(d: Dist, l: FocusLevel): nat
  {
    match l
    case Excellent => d.excellent
    case Good => d.good
    case Acceptable => d.acceptable
    case Poor => d.poor
    case Unusable => d.unusable
  }

  /** `focus_summary[level] += 1`. */
  function Bump(d: Dist, l: FocusLevel): (d': Dist)
    ensures Count(d', l) == Count(d, l) + 1
    ensures forall m :: m != l ==> Count(d', m) == Count(d, m)
  {
    match l
    case Excellent => d.(excellent := d.excellent + 1)
    case Good => d.(good := d.good + 1)
    case Acceptable => d.(acceptable := d.acceptable + 1)
    case Poor => d.(poor := d.poor + 1)
    case Unusable => d.(unusable := d.unusable + 1)
  }

  function DistTotal(d: Dist): nat
  {
    d.excellent + d.good + d.acceptable + d.poor + d.unusable
  }

  /** The counters after a list of records: each summary counts under its level. */
  function DistOf(records: seq<FocusRecord>): Dist
  {
    if records == [] then Dist(0, 0, 0, 0, 0)
    else
      var n := |records| - 1;
      var d := DistOf(records[..n]);
      if records[n].Summary? then Bump(d, records[n].level) else d
  }

  /** The number of records with the level `l`. */
  function LevelCount(records: seq<FocusRecord>, l: FocusLevel): nat
  {
    if records == [] then 0
    else
      var n := |records| - 1;
      LevelCount(records[..n], l) + (if records[n].Summary? && records[n].level == l then 1 else 0)
  }

  function SummaryCount(records: seq<FocusRecord>): (c: nat)
    ensures c <= |records|
  {
    if records == [] then 0
    else
      var n := |records| - 1;
      SummaryCount(records[..n]) + (if records[n].Summary? then 1 else 0)
  }

  datatype BatchSummary = BatchSummary(
    totalImages: nat,
    distribution: Dist,
    outOfFocusCount: nat,
    usableCount: int)

  /** The `summary` part of the batch results. */
  function SummaryOf(total: nat, d: Dist): BatchSummary
  {
    BatchSummary(total, d, d.poor + d.unusable, total - (d.poor + d.unusable))
  }

  /** The counters count each level's records, and add up to the number of summaries. */
  lemma {:induction false} DistCounts(records: seq<FocusRecord>)
    ensures forall l :: Count(DistOf(records), l) == LevelCount(records, l)
    ensures DistTotal(DistOf(records)) == SummaryCount(records)
  {
    if records != [] {
      var n := |records| - 1;
      DistCounts(records[..n]);
    }
  }

  /**
   * Out of focus counts poor and unusable; usable is everything else, so a path
   * whose analysis raised counts as usable; the levels add up to the successes.
   */
  lemma BatchSummaryFacts(records: seq<FocusRecord>)
    ensures var s := SummaryOf(|records|, DistOf(records));
      && s.outOfFocusCount == LevelCount(records, Poor) + LevelCount(records, Unusable)
      && DistTotal(s.distribution) == SummaryCount(records)
      && s.usableCount == (|records| - SummaryCount(records))
                          + LevelCount(records, Excellent) + LevelCount(records, Good)
                          + LevelCount(records, Acceptable)
      && 0 <= s.usableCount <= |records|
  {
    DistCounts(records);
    assert Count(DistOf(records), Poor) == LevelCount(records, Poor);
    assert Count(DistOf(records), Unusable) == LevelCount(records, Unusable);
    assert Count(DistOf(records), Excellent) == LevelCount(records, Excellent);
    assert Count(DistOf(records), Good) == LevelCount(records, Good);
    assert Count(DistOf(records), Acceptable) == LevelCount(records, Acceptable);
  }

  /** A batch whose every analysis raised counts every image as usable and none out of focus. */
  lemma {:induction false} AllErrorsAreUsable(records: seq<FocusRecord>)
    requires forall i :: 0 <= i < |records| ==> records[i].Error?
    ensures SummaryOf(|records|, DistOf(records)) == BatchSummary(|records|, Dist(0, 0, 0, 0, 0), 0, |records|)
  {
    if records != [] {
      AllErrorsAreUsable(records[..|records| - 1]);
    }
  }

  /** The rest of the loop body once the focus part of a report is known: read its global score and status. */
  method RecordReport(path: string, results: Value, fq: Result<(FocusAnalysis, seq<string>)>)
    returns (rec: FocusRecord)
    ensures rec == RecordAfter(path, results, fq)
  {
    if fq.Err? {
      return Error(path, FileName(path), fq.message);
    }
    var global := Lookup(results, GlobalKey);
    if global.None? {
      return Error(path, FileName(path), "'" + GlobalKey + "'");
    }
    var score := Lookup(global.value, ScoreKey);
    if score.None? {
      return Error(path, FileName(path), "'" + ScoreKey + "'");
    }
    var status := Lookup(global.value, StatusKey);
    if status.None? {
      return Error(path, FileName(path), "'" + StatusKey + "'");
    }
    var a := fq.value.0;
    rec := Summary(path, FileName(path), a.level, a.focusScore, score.value, status.value, a.issues, fq.value.1);
  }

  /** The loop body of `batch_analyze_focus` for one path. */
  method AnalyzePath(t: Thresholds, analyze: string -> Result<Value>, path: string) returns (rec: FocusRecord)
    ensures rec == Recorder(t, analyze)(path)
  {
    var r, results := AnalyzeFocusQuality(t, analyze, path);
    if analyze(path).Err? {
      return Error(path, FileName(path), r.message);
    }
    rec := RecordReport(path, results, r);
  }

  /** One more path adds its record at the end, and counts it when it is a summary. */
  lemma RecordStep(record: string -> FocusRecord, paths: seq<string>, i: nat, records: seq<FocusRecord>,
                   rec: FocusRecord)
    requires i < |paths| && records == Analyzer.MapPaths(record, paths[..i]) && rec == record(paths[i])
    ensures records + [rec] == Analyzer.MapPaths(record, paths[..i + 1])
    ensures DistOf(records + [rec]) == if rec.Summary? then Bump(DistOf(records), rec.level) else DistOf(records)
  {
    assert paths[..i + 1][..i] == paths[..i];
    assert (records + [rec])[..|records|] == records;
  }

  /** What `batch_analyze_focus` returns: the summary and one record per path. */
  datatype BatchFocusResult = BatchFocusResult(summary: BatchSummary, records: seq<FocusRecord>)

  /** `_print_batch_summary` divides by the number of images, so an empty batch raises there. */
  const EmptyBatchError := "ZeroDivisionError: division by zero"

  /**
   * `batch_analyze_focus` without printing or saving: one record per path, in
   * order, and the summary of the level counters; an empty path list raises in
   * the summary printout that follows the loop.
   */
  method BatchAnalyzeFocus(t: Thresholds, analyze: string -> Result<Value>, paths: seq<string>)
    returns (r: Result<BatchFocusResult>)
    ensures r.Err? <==> paths == []
    ensures r.Err? ==> r.message == EmptyBatchError
    ensures r.Ok? ==> r.value.records == Analyzer.MapPaths(Recorder(t, analyze), paths)
    ensures r.Ok? ==> r.value.summary == SummaryOf(|paths|, DistOf(r.value.records))
  {
    ghost var record := Recorder(t, analyze);
    var records := [];
    var dist := Dist(0, 0, 0, 0, 0);
    var i := 0;
    while i < |paths|
      invariant 0 <= i <= |paths|
      invariant records == Analyzer.MapPaths(record, paths[..i])
      invariant dist == DistOf(records)
    {
      var rec := AnalyzePath(t, analyze, paths[i]);
      RecordStep(record, paths, i, records, rec);
      if rec.Summary? {
        dist := Bump(dist, rec.level);
      }
      records := records + [rec];
      i := i + 1;
    }
    assert paths[..i] == paths;
    if |paths| == 0 {
      return Err(EmptyBatchError);
    }
    var summary := BatchSummary(|paths|, dist, dist.poor + dist.unusable, |paths| - (dist.poor + dist.unusable));
    r := Ok(BatchFocusResult(summary, records));
  }
}
