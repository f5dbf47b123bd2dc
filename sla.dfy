/**
 * The SLA evaluator: it checks one analysis result against the configured quality
 * standards (a minimum overall score, a limit on failing categories, categories that
 * must pass, per-category performance thresholds), names a compliance level, writes
 * SLA recommendations, and summarises a batch of such evaluations.
 */
module Sla {
  import opened Values
  import opened Scoring

  // ---------------------------------------------------------------------------
  // Compliance levels

  datatype Level = Excellent | Compliant | Warning | NonCompliant

  const ExcellentValue: string := "excellent"
  const CompliantValue: string := "compliant"
  const WarningValue: string := "warning"
  const NonCompliantValue: string := "non_compliant"

  /** `SLAComplianceLevel.value`. */
  function LevelValue(l: Level): string
  {
    match l
    case Excellent => ExcellentValue
    case Compliant => CompliantValue
    case Warning => WarningValue
    case NonCompliant => NonCompliantValue
  }

  /** How good a level is: a better level has a higher rank. */
  function Rank(l: Level): nat
  {
    match l
    case Excellent => 3
    case Compliant => 2
    case Warning => 1
    case NonCompliant => 0
  }

  /** The evaluator's state, fixed when it is built from a configuration. */
  datatype Evaluator = Evaluator(config: Value, slaConfig: Value, qualityStandards: Value, enabled: bool)

  /** `SLAEvaluator(config)`; SLA evaluation is off unless `sla.enabled` is truthy. */
  function NewEvaluator(config: Value): Evaluator
  {
    var sla := Section(config, "sla");
    Evaluator(config, sla, Section(config, "quality_standards"), TruthyOr(sla, "enabled", false))
  }

  /** `compliance_levels.<level>.min_score`, or the built-in default. */
  function LevelMin(sla: Value, level: string, dflt: real): real
  {
    NumOr(Section(Section(sla, LevelsKey), level), "min_score", dflt)
  }

  /**
   * `_determine_compliance_level`: the first level whose minimum the score reaches,
   * tried from the best down. Only the score decides.
   */
  function DetermineLevel(sla: Value, score: real): (l: Level)
    ensures l == Excellent <==> score >= LevelMin(sla, "excellent", 0.90)
    ensures l == NonCompliant <==>
      score < LevelMin(sla, "excellent", 0.90) && score < LevelMin(sla, "compliant", 0.75)
      && score < LevelMin(sla, "warning", 0.60)
  {
    if score >= LevelMin(sla, "excellent", 0.90) then Excellent
    else if score >= LevelMin(sla, "compliant", 0.75) then Compliant
    else if score >= LevelMin(sla, "warning", 0.60) then Warning
    else NonCompliant
  }

  /** A higher score never gives a worse level, whatever minimums are configured. */
  lemma LevelMonotone(sla: Value, x: real, y: real)
    requires x <= y
    ensures Rank(DetermineLevel(sla, x)) <= Rank(DetermineLevel(sla, y))
  {
  }

  /** Without configured levels the minimums are 0.90, 0.75 and 0.60, each inclusive. */
  lemma DefaultLevelBands(sla: Value, score: real)
    requires !Has(sla, LevelsKey)
    ensures DetermineLevel(sla, score) ==
      if score >= 0.90 then Excellent
      else if score >= 0.75 then Compliant
      else if score >= 0.60 then Warning
      else NonCompliant
  {
  }

  // ---------------------------------------------------------------------------
  // Category failures and required categories

  /** The statuses of a category-status dict, in order. */
  function StatusesOf(cs: seq<(string, Status)>): (r: seq<Status>)
    ensures |r| == |cs|
    ensures forall i :: 0 <= i < |cs| ==> r[i] == cs[i].1
  {
    if cs == [] then [] else StatusesOf(cs[..|cs| - 1]) + [cs[|cs| - 1].1]
  }

  /** `sum(1 for status in category_status.values() if status == 'fail')`. */
  function FailCount(cs: seq<(string, Status)>): (n: nat)
    ensures n <= |cs|
  {
    if cs == [] then 0 else FailCount(cs[..|cs| - 1]) + (if cs[|cs| - 1].1 == Fail then 1 else 0)
  }

  /** The failure count is the number of failing statuses. */
  lemma {:induction false} FailCountCounts(cs: seq<(string, Status)>)
    ensures FailCount(cs) == multiset(StatusesOf(cs))[Fail]
    decreases |cs|
  {
    if cs != [] {
      FailCountCounts(cs[..|cs| - 1]);
      assert StatusesOf(cs) == StatusesOf(cs[..|cs| - 1]) + [cs[|cs| - 1].1];
    }
  }

  const RequiredKey: string := "required_pass_categories"
  const NotIterableError: string := "TypeError: object is not iterable"
  const UnhashableError: string := "TypeError: unhashable type"
  const JoinTypeError: string := "TypeError: sequence item: expected str instance"

  /** A string's characters as one-character strings, the way `for c in s` visits them. */
  function Chars(s: string): (r: seq<Value>)
    ensures |r| == |s|
    ensures forall i :: 0 <= i < |s| ==> r[i] == Str([s[i]])
  {
    seq(|s|, i requires 0 <= i < |s| => Str([s[i]]))
  }

  /** Strings as values. */
  function StrValues(ks: seq<string>): (r: seq<Value>)
    ensures |r| == |ks|
    ensures forall i :: 0 <= i < |ks| ==> r[i] == Str(ks[i])
  {
    seq(|ks|, i requires 0 <= i < |ks| => Str(ks[i]))
  }

  /**
   * What `for category in required_pass_categories` visits: a list's items, a
   * string's characters, a dict's keys; nothing for a missing key; any other
   * value is not iterable.
   */
  function RequiredEntries(sla: Value): Result<seq<Value>>
  {
    match Lookup(Section(sla, "requirements"), RequiredKey)
    case None => Ok([])
    case Some(Arr(items)) => Ok(items)
    case Some(Str(s)) => Ok(Chars(s))
    case Some(Obj(f)) => Ok(StrValues(Keys(f)))
    case Some(_) => Err(NotIterableError)
  }

  predicate Unhashable(v: Value)
  {
    v.Arr? || v.Obj?
  }

  predicate AnyUnhashable(entries: seq<Value>)
  {
    exists i :: 0 <= i < |entries| && Unhashable(entries[i])
  }

  /**
   * The entries as category names. A list or dict entry raises at
   * `category_status.get`. Any other entry that is not a string misses every key
   * of `category_status`, so it reads `'fail'` and becomes a violation, and the
   * `', '.join` of the violations then raises.
   */
  function RequiredNames(entries: seq<Value>): (r: Result<seq<string>>)
    ensures r.Ok? <==> forall i :: 0 <= i < |entries| ==> entries[i].Str?
    ensures r.Ok? ==> |r.value| == |entries| && forall i :: 0 <= i < |entries| ==> entries[i] == Str(r.value[i])
    ensures r.Err? && AnyUnhashable(entries) ==> r.message == UnhashableError
    ensures r.Err? && !AnyUnhashable(entries) ==> r.message == JoinTypeError
  {
    if AnyUnhashable(entries) then Err(UnhashableError)
    else if exists i :: 0 <= i < |entries| && !entries[i].Str? then Err(JoinTypeError)
    else Ok(seq(|entries|, i requires 0 <= i < |entries| => entries[i].s))
  }

  /**
   * `sla.requirements.required_pass_categories`, by default none: a list of names,
   * the characters of a string or the keys of a dict, with the raises above.
   */
  function RequiredPassCategories(sla: Value): (r: Result<seq<string>>)
    ensures var v := Lookup(Section(sla, "requirements"), RequiredKey);
      && (v.None? ==> r == Ok([]))
      && (v.Some? && (v.value.Null? || v.value.Num? || v.value.Bool?) ==> r == Err(NotIterableError))
      && (v.Some? && v.value.Str? ==>
            r.Ok? && |r.value| == |v.value.s| && forall i :: 0 <= i < |v.value.s| ==> r.value[i] == [v.value.s[i]])
      && (v.Some? && v.value.Obj? ==> r == Ok(Keys(v.value.fields)))
      && (v.Some? && v.value.Arr? ==> r == RequiredNames(v.value.items))
  {
    var v := Lookup(Section(sla, "requirements"), RequiredKey);
    match RequiredEntries(sla)
    case Err(e) => Err(e)
    case Ok(entries) =>
      if v.Some? && v.value.Obj? then
        StrValuesNames(Keys(v.value.fields));
        RequiredNames(entries)
      else if v.Some? && v.value.Str? then
        CharsNames(v.value.s);
        RequiredNames(entries)
      else RequiredNames(entries)
  }

  /** Names given as strings read back as themselves. */
  lemma StrValuesNames(ks: seq<string>)
    ensures RequiredNames(StrValues(ks)) == Ok(ks)
  {
    var r := RequiredNames(StrValues(ks));
    assert r.Ok? && |r.value| == |ks|;
    forall i | 0 <= i < |ks| ensures r.value[i] == ks[i] {
      assert StrValues(ks)[i] == Str(ks[i]);
    }
    assert r.value == ks;
  }

  /** A string's characters read as one-character names. */
  lemma CharsNames(t: string)
    ensures var r := RequiredNames(Chars(t));
      r.Ok? && |r.value| == |t| && forall i :: 0 <= i < |t| ==> r.value[i] == [t[i]]
  {
    var r := RequiredNames(Chars(t));
    assert r.Ok?;
    forall i | 0 <= i < |t| ensures r.value[i] == [t[i]] {
      assert Chars(t)[i] == Str([t[i]]);
    }
  }

  /** The string value "sharpness" requires each of its nine letters to pass, not the category. */
  lemma RequiredStringIsCharacters(sla: Value)
    requires Lookup(Section(sla, "requirements"), RequiredKey) == Some(Str("sharpness"))
    ensures RequiredPassCategories(sla).Ok?
    ensures "s" in RequiredPassCategories(sla).value && "sharpness" !in RequiredPassCategories(sla).value
  {
    var r := RequiredPassCategories(sla).value;
    assert r[0] == "s";
    assert forall i :: 0 <= i < |r| ==> |r[i]| == 1;
  }

  /** `sla.requirements.max_fail_categories`, by default 1. */
  function MaxFailCategories(sla: Value): real
  {
    NumOr(Section(sla, "requirements"), "max_fail_categories", 1.0)
  }

  /** `scoring.pass_score_threshold`, by default 0.80: the SLA's minimum overall score. */
  function MinOverallScore(config: Value): real
  {
    NumOr(Section(config, "scoring"), "pass_score_threshold", 0.80)
  }

  /**
   * The required categories that did not pass, in the required order; a category
   * with no status at all reads as `'fail'` and so is a violation too.
   */
  function MissingPasses(required: seq<string>, cs: seq<(string, Status)>): (r: seq<string>)
    ensures |r| <= |required|
    ensures forall c :: c in r <==> c in required && Get(cs, c) != Some(Pass)
  {
    if required == [] then []
    else
      var last := required[|required| - 1];
      MissingPasses(required[..|required| - 1], cs) + (if Get(cs, last) != Some(Pass) then [last] else [])
  }

  /** The loop that collects `required_pass_violations`. */
  method RequiredPassViolations(required: seq<string>, cs: seq<(string, Status)>) returns (violations: seq<string>)
    ensures violations == MissingPasses(required, cs)
  {
    violations := [];
    var i := 0;
    while i < |required|
      invariant 0 <= i <= |required|
      invariant violations == MissingPasses(required[..i], cs)
    {
      assert required[..i + 1][..i] == required[..i];
      var status := Get(cs, required[i]);
      if status != Some(Pass) {
        violations := violations + [required[i]];
      }
      i := i + 1;
    }
    assert required[..i] == required;
  }

  // ---------------------------------------------------------------------------
  // Performance targets

  /** The categories that have a performance standard. */
  datatype Standard = SharpnessStandard | ContrastStandard | ResolutionStandard | GeometryStandard | ExposureStandard

  /** The category key of a standard. */
  function StandardKey(s: Standard): string
  {
    match s
    case SharpnessStandard => "sharpness"
    case ContrastStandard => "contrast"
    case ResolutionStandard => "resolution"
    case GeometryStandard => "geometry"
    case ExposureStandard => "exposure"
  }

  /** The standard of a category key, if it has one. */
  function StandardOf(category: string): (r: Option<Standard>)
    ensures r.Some? ==> StandardKey(r.value) == category
  {
    if category == "sharpness" then Some(SharpnessStandard)
    else if category == "contrast" then Some(ContrastStandard)
    else if category == "resolution" then Some(ResolutionStandard)
    else if category == "geometry" then Some(GeometryStandard)
    else if category == "exposure" then Some(ExposureStandard)
    else None
  }

  /** Every standard is found under its own key. */
  lemma StandardRoundTrip(s: Standard)
    ensures StandardOf(StandardKey(s)) == Some(s)
  {
  }

  /** The `'category'` entry of a violation record. */
  function StandardName(s: Standard): string
  {
    match s
    case SharpnessStandard => "Sharpness"
    case ContrastStandard => "Contrast"
    case ResolutionStandard => "Resolution"
    case GeometryStandard => "Geometry"
    case ExposureStandard => "Exposure"
  }

  /** The `'metric'` entry of a violation record. */
  function MetricName(s: Standard): string
  {
    match s
    case SharpnessStandard => "Laplacian Variance"
    case ContrastStandard => "Global Contrast"
    case ResolutionStandard => "Minimum DPI"
    case GeometryStandard => "Skew Angle"
    case ExposureStandard => "Clipping"
  }

  /** A metric beyond a quality-standard threshold. */
  datatype Violation =
    | Below(standard: Standard, threshold: real, actual: real)
    | Above(standard: Standard, threshold: real, actual: real)
    | Clipping(maxShadow: real, maxHighlight: real, shadowClip: real, highlightClip: real)

  /** The standard a violation record is about. */
  function ViolatedStandard(v: Violation): Standard
  {
    if v.Clipping? then ExposureStandard else v.standard
  }

  /** `category_config.get('threshold')` when it is truthy. */
  function CategoryThreshold(cc: Value): (t: Option<real>)
    ensures t.Some? ==> t.value != 0.0
  {
    match Lookup(cc, "threshold")
    case Some(Num(t)) => if t != 0.0 then Some(t) else None
    case Some(Bool(b)) => if b then Some(1.0) else None
    case _ => None
  }

  /**
   * Evaluating one standard: sharpness, contrast and resolution need a truthy
   * threshold their metric falls below, geometry one its skew exceeds; exposure is
   * judged by the clipping limits of the `exposure` section instead.
   */
  function StandardViolation(config: Value, s: Standard, m: Value, cc: Value): (r: Option<Violation>)
    ensures r.Some? ==> ViolatedStandard(r.value) == s
    ensures r.Some? ==> (r.value.Clipping? <==> s == ExposureStandard)
    ensures s != ExposureStandard && CategoryThreshold(cc).None? ==> r.None?
    ensures r.Some? && r.value.Below? ==> r.value.actual < r.value.threshold
    ensures r.Some? && r.value.Above? ==> r.value.actual > r.value.threshold
    ensures r.Some? && r.value.Clipping? ==>
      r.value.shadowClip > r.value.maxShadow || r.value.highlightClip > r.value.maxHighlight
  {
    var t := CategoryThreshold(cc);
    match s
    case SharpnessStandard =>
      var actual := NumOr(m, "laplacian_var", 0.0);
      if t.Some? && actual < t.value then Some(Below(s, t.value, actual)) else None
    case ContrastStandard =>
      var actual := NumOr(m, "global_contrast", 0.0);
      if t.Some? && actual < t.value then Some(Below(s, t.value, actual)) else None
    case ResolutionStandard =>
      var actual := Min(NumOr(m, "effective_dpi_x", 0.0), NumOr(m, "effective_dpi_y", 0.0));
      if t.Some? && actual < t.value then Some(Below(s, t.value, actual)) else None
    case GeometryStandard =>
      var actual := NumOr(m, "skew_angle_abs", 0.0);
      if t.Some? && actual > t.value then Some(Above(s, t.value, actual)) else None
    case ExposureStandard =>
      var clipping := Section(m, "clipping");
      var shadow := NumOr(clipping, "shadow_clip_pct", 0.0);
      var highlight := NumOr(clipping, "highlight_clip_pct", 0.0);
      var exposure := Section(config, "exposure");
      var maxShadow := NumOr(exposure, "max_shadow_clip_pct", 0.5);
      var maxHighlight := NumOr(exposure, "max_highlight_clip_pct", 0.5);
      if shadow > maxShadow || highlight > maxHighlight then Some(Clipping(maxShadow, maxHighlight, shadow, highlight))
      else None
  }

  /**
   * `_get_violation_details`: a record only for a category with a standard, checked
   * on that category's metrics.
   */
  function ViolationDetails(config: Value, category: string, metrics: Value, cc: Value): (r: Option<Violation>)
    ensures r.Some? ==> StandardOf(category) == Some(ViolatedStandard(r.value))
  {
    match StandardOf(category)
    case None => None
    case Some(s) => StandardViolation(config, s, Section(metrics, category), cc)
  }

  /** The violation record, if any, of one category under the evaluator's standards. */
  function CategoryViolation(e: Evaluator, category: string, metrics: Value): Option<Violation>
  {
    ViolationDetails(e.config, category, metrics, Section(e.qualityStandards, category))
  }

  /** `_check_custom_quality_standards` over the first `|cs|` categories: one check per failing category. */
  function PerformanceViolations(e: Evaluator, metrics: Value, cs: seq<(string, Status)>): (r: seq<Violation>)
    ensures |r| <= FailCount(cs)
  {
    if cs == [] then []
    else
      var last := cs[|cs| - 1];
      var prev := PerformanceViolations(e, metrics, cs[..|cs| - 1]);
      if last.1 == Fail then
        match CategoryViolation(e, last.0, metrics)
        case Some(v) => prev + [v]
        case None => prev
      else prev
  }

  /** Every violation comes from a failing category that has a performance standard. */
  lemma {:induction false} ViolationOrigins(e: Evaluator, metrics: Value, cs: seq<(string, Status)>, i: nat)
    requires i < |PerformanceViolations(e, metrics, cs)|
    ensures exists j ::
      0 <= j < |cs| && cs[j].1 == Fail && CategoryViolation(e, cs[j].0, metrics) == Some(PerformanceViolations(e, metrics, cs)[i])
    decreases |cs|
  {
    var init := cs[..|cs| - 1];
    var prev := PerformanceViolations(e, metrics, init);
    if i < |prev| {
      ViolationOrigins(e, metrics, init, i);
      var j :| 0 <= j < |init| && init[j].1 == Fail
        && CategoryViolation(e, init[j].0, metrics) == Some(prev[i]);
      assert cs[j] == init[j];
    } else {
      var j := |cs| - 1;
      assert cs[j].1 == Fail && CategoryViolation(e, cs[j].0, metrics).Some?;
    }
  }

  /** In a dict of statuses no category produces two violations: each standard is violated at most once. */
  lemma {:induction false} ViolationsDistinct(e: Evaluator, metrics: Value, cs: seq<(string, Status)>)
    requires UniqueKeys(cs)
    ensures var r := PerformanceViolations(e, metrics, cs);
      forall i, j :: 0 <= i < j < |r| ==> ViolatedStandard(r[i]) != ViolatedStandard(r[j])
    decreases |cs|
  {
    var r := PerformanceViolations(e, metrics, cs);
    if cs != [] {
      var init := cs[..|cs| - 1];
      var prev := PerformanceViolations(e, metrics, init);
      assert UniqueKeys(init);
      ViolationsDistinct(e, metrics, init);
      if |r| > |prev| {
        var k := cs[|cs| - 1].0;
        forall i | 0 <= i < |prev|
          ensures ViolatedStandard(r[i]) != ViolatedStandard(r[|prev|])
        {
          ViolationOrigins(e, metrics, init, i);
          var j :| 0 <= j < |init| && init[j].1 == Fail
            && CategoryViolation(e, init[j].0, metrics) == Some(prev[i]);
          assert cs[j] == init[j];
          assert init[j].0 != k;
        }
      }
    }
  }

  /** The loop of `_check_custom_quality_standards`. */
  method CheckCustomQualityStandards(e: Evaluator, metrics: Value, cs: seq<(string, Status)>)
    returns (violations: seq<Violation>)
    ensures violations == PerformanceViolations(e, metrics, cs)
  {
    violations := [];
    var i := 0;
    while i < |cs|
      invariant 0 <= i <= |cs|
      invariant violations == PerformanceViolations(e, metrics, cs[..i])
    {
      assert cs[..i + 1][..i] == cs[..i];
      if cs[i].1 == Fail {
        var info := CategoryViolation(e, cs[i].0, metrics);
        if info.Some? {
          violations := violations + [info.value];
        }
      }
      i := i + 1;
    }
    assert cs[..i] == cs;
  }

  // ---------------------------------------------------------------------------
  // Recommendations

  /** An SLA recommendation line, by the requirement it is about. */
  datatype Recommendation =
    | RaiseScore(minScore: real)
    | ReduceFailures(maxFailCategories: real)
    | MustPass(categories: seq<string>)
    | Target(violation: Violation)
    | AllMet

  const TargetMark: string := "\U{1F3AF} "

  /** `', '.join(names)`. */
  function JoinComma(names: seq<string>): string
  {
    if names == [] then "" else if |names| == 1 then names[0] else names[0] + ", " + JoinComma(names[1..])
  }

  /** The text of the lines that carry no formatted number. */
  function RecommendationText(r: Recommendation): string
    requires r.MustPass? || r.AllMet? || (r.Target? && r.violation.Clipping?)
  {
    match r
    case MustPass(categories) =>
      TargetMark + "SLA REQUIREMENT: These critical categories must pass: " + JoinComma(categories)
    case Target(_) => TargetMark + "SLA TARGET: Image exposure clipping exceeds quality standards"
    case AllMet => "\U{2705} SLA COMPLIANT: All requirements met"
  }

  /** The number of performance-target lines. */
  function TargetCount(rs: seq<Recommendation>): nat
  {
    if rs == [] then 0 else TargetCount(rs[..|rs| - 1]) + (if rs[|rs| - 1].Target? then 1 else 0)
  }

  /** Target lines for the given violations, in order. */
  function Targets(vs: seq<Violation>): (r: seq<Recommendation>)
    ensures |r| == |vs|
    ensures forall i :: 0 <= i < |vs| ==> r[i] == Target(vs[i])
  {
    if vs == [] then [] else Targets(vs[..|vs| - 1]) + [Target(vs[|vs| - 1])]
  }

  lemma {:induction false} TargetsCount(vs: seq<Violation>)
    ensures TargetCount(Targets(vs)) == |vs|
    decreases |vs|
  {
    if vs != [] {
      TargetsCount(vs[..|vs| - 1]);
      assert Targets(vs)[..|vs| - 1] == Targets(vs[..|vs| - 1]);
    }
  }

  lemma {:induction false} TargetCountAppend(a: seq<Recommendation>, b: seq<Recommendation>)
    ensures TargetCount(a + b) == TargetCount(a) + TargetCount(b)
    decreases |b|
  {
    if b == [] {
      assert a + b == a;
    } else {
      TargetCountAppend(a, b[..|b| - 1]);
      assert (a + b)[..|a + b| - 1] == a + b[..|b| - 1];
      assert (a + b)[|a + b| - 1] == b[|b| - 1];
    }
  }

  /** The lines about the first three requirements, in the fixed order score, failures, required categories. */
  function RequirementLines(scoreOk: bool, failOk: bool, requiredOk: bool,
                            requiredViolations: seq<string>, minScore: real, maxFail: real): (r: seq<Recommendation>)
    ensures AllMet !in r
    ensures RaiseScore(minScore) in r <==> !scoreOk
    ensures ReduceFailures(maxFail) in r <==> !failOk
    ensures MustPass(requiredViolations) in r <==> !requiredOk
  {
    var r1 := if !scoreOk then [RaiseScore(minScore)] else [];
    var r2 := if !failOk then r1 + [ReduceFailures(maxFail)] else r1;
    if !requiredOk then r2 + [MustPass(requiredViolations)] else r2
  }

  lemma RequirementLinesHaveNoTargets(scoreOk: bool, failOk: bool, requiredOk: bool,
                                      requiredViolations: seq<string>, minScore: real, maxFail: real)
    ensures TargetCount(RequirementLines(scoreOk, failOk, requiredOk, requiredViolations, minScore, maxFail)) == 0
  {
    var r1: seq<Recommendation> := if !scoreOk then [RaiseScore(minScore)] else [];
    var r2 := if !failOk then r1 + [ReduceFailures(maxFail)] else r1;
    TargetCountAppend(r1, [ReduceFailures(maxFail)]);
    TargetCountAppend(r2, [MustPass(requiredViolations)]);
  }

  /** The violations the target lines are about: the first three. */
  function TopViolations(violations: seq<Violation>): (r: seq<Violation>)
    ensures |r| <= 3
  {
    violations[..IMin(3, |violations|)]
  }

  /**
   * `_generate_sla_recommendations`: one line per unmet requirement in the fixed
   * order, target lines for the first violations, and the compliance line exactly
   * when all four checks pass.
   */
  function SlaRecommendations(scoreOk: bool, failOk: bool, requiredOk: bool, performanceOk: bool,
                              requiredViolations: seq<string>, violations: seq<Violation>,
                              minScore: real, maxFail: real): seq<Recommendation>
  {
    var r3 := RequirementLines(scoreOk, failOk, requiredOk, requiredViolations, minScore, maxFail);
    var r4 := if !performanceOk then r3 + Targets(TopViolations(violations)) else r3;
    if scoreOk && failOk && requiredOk && performanceOk then r4 + [AllMet] else r4
  }

  /**
   * Each failed requirement has its line, and the line saying every requirement is
   * met appears exactly when all four hold.
   */
  lemma RecommendationLines(scoreOk: bool, failOk: bool, requiredOk: bool, performanceOk: bool,
                            requiredViolations: seq<string>, violations: seq<Violation>,
                            minScore: real, maxFail: real)
    ensures var r := SlaRecommendations(scoreOk, failOk, requiredOk, performanceOk,
                                        requiredViolations, violations, minScore, maxFail);
      && (AllMet in r <==> scoreOk && failOk && requiredOk && performanceOk)
      && (RaiseScore(minScore) in r <==> !scoreOk)
      && (ReduceFailures(maxFail) in r <==> !failOk)
      && (MustPass(requiredViolations) in r <==> !requiredOk)
  {
  }

  /** At most three performance-target lines, however many violations there are. */
  lemma AtMostThreeTargets(scoreOk: bool, failOk: bool, requiredOk: bool, performanceOk: bool,
                           requiredViolations: seq<string>, violations: seq<Violation>,
                           minScore: real, maxFail: real)
    ensures TargetCount(SlaRecommendations(scoreOk, failOk, requiredOk, performanceOk,
                                           requiredViolations, violations, minScore, maxFail)) <= 3
  {
    var r3 := RequirementLines(scoreOk, failOk, requiredOk, requiredViolations, minScore, maxFail);
    RequirementLinesHaveNoTargets(scoreOk, failOk, requiredOk, requiredViolations, minScore, maxFail);
    var d := Targets(TopViolations(violations));
    TargetsCount(TopViolations(violations));
    TargetCountAppend(r3, d);
    var r4 := if !performanceOk then r3 + d else r3;
    TargetCountAppend(r4, [AllMet]);
  }

  /** The method form of `_generate_sla_recommendations`, with its loop over the first three violations. */
  method GenerateSlaRecommendations(scoreOk: bool, failOk: bool, requiredOk: bool, performanceOk: bool,
                                    requiredViolations: seq<string>, violations: seq<Violation>,
                                    minScore: real, maxFail: real)
    returns (recommendations: seq<Recommendation>)
    ensures recommendations == SlaRecommendations(scoreOk, failOk, requiredOk, performanceOk,
                                                  requiredViolations, violations, minScore, maxFail)
  {
    recommendations := [];
    if !scoreOk {
      recommendations := recommendations + [RaiseScore(minScore)];
    }
    if !failOk {
      recommendations := recommendations + [ReduceFailures(maxFail)];
    }
    if !requiredOk {
      recommendations := recommendations + [MustPass(requiredViolations)];
    }
    assert recommendations == RequirementLines(scoreOk, failOk, requiredOk, requiredViolations, minScore, maxFail);
    if !performanceOk {
      var top := TopViolations(violations);
      var targets: seq<Recommendation> := [];
      var i := 0;
      while i < |top|
        invariant 0 <= i <= |top|
        invariant targets == Targets(top[..i])
      {
        assert top[..i + 1][..i] == top[..i];
        targets := targets + [Target(top[i])];
        i := i + 1;
      }
      assert top[..i] == top;
      recommendations := recommendations + targets;
    }
    if scoreOk && failOk && requiredOk && performanceOk {
      recommendations := recommendations + [AllMet];
    }
  }

  // ---------------------------------------------------------------------------
  // evaluate_sla_compliance

  datatype Compliance = Compliance(
    level: Level,
    description: string,
    overallCompliant: bool,
    score: real,
    minimumScore: real,
    scoreCompliant: bool,
    maxFailCategories: real,
    failCount: nat,
    failCompliant: bool,
    required: seq<string>,
    requiredViolations: seq<string>,
    requiredCompliant: bool,
    violations: seq<Violation>,
    performanceCompliant: bool)

  datatype SlaResult =
    | Disabled(message: string)
    | Evaluated(name: string, description: string, compliance: Compliance, recommendations: seq<Recommendation>)
    | Raised(message: string)

  const LevelsKey: string := "compliance_levels"
  const NameKey: string := "name"
  const DescriptionKey: string := "description"
  const DisabledMessage: string := "SLA evaluation disabled"
  const DefaultSlaName: string := "Custom Quality Standards"
  const DefaultSlaDescription: string := "Quality evaluation based on custom thresholds"

  /** `evaluate_sla_compliance`. */
  function Evaluate(e: Evaluator, metrics: Value, cs: seq<(string, Status)>, globalScore: real): (r: SlaResult)
    ensures r.Disabled? <==> !e.enabled
    ensures r.Disabled? ==> r.message == DisabledMessage
    ensures r.Raised? <==> e.enabled && RequiredPassCategories(e.slaConfig).Err?
    ensures r.Raised? ==> r.message == RequiredPassCategories(e.slaConfig).message
  {
    if !e.enabled then Disabled(DisabledMessage)
    else if RequiredPassCategories(e.slaConfig).Err? then Raised(RequiredPassCategories(e.slaConfig).message)
    else
      var minScore := MinOverallScore(e.config);
      var scoreOk := globalScore >= minScore;
      var maxFail := MaxFailCategories(e.slaConfig);
      var fails := FailCount(cs);
      var failOk := fails as real <= maxFail;
      var required := RequiredPassCategories(e.slaConfig).value;
      var missing := MissingPasses(required, cs);
      var requiredOk := |missing| == 0;
      var violations := PerformanceViolations(e, metrics, cs);
      var performanceOk := |violations| == 0;
      var level := DetermineLevel(e.slaConfig, globalScore);
      var info := Section(Section(e.slaConfig, LevelsKey), LevelValue(level));
      Evaluated(
        StrOr(e.slaConfig, NameKey, DefaultSlaName),
        StrOr(e.slaConfig, DescriptionKey, DefaultSlaDescription),
        Compliance(level, StrOr(info, DescriptionKey, ""), scoreOk && failOk && requiredOk && performanceOk,
                   globalScore, minScore, scoreOk, maxFail, fails, failOk,
                   required, missing, requiredOk, violations, performanceOk),
        SlaRecommendations(scoreOk, failOk, requiredOk, performanceOk, missing, violations, minScore, maxFail))
  }

  /** `evaluate_sla_compliance` with its two collecting loops. */
  method EvaluateSlaCompliance(e: Evaluator, metrics: Value, cs: seq<(string, Status)>, globalScore: real)
    returns (r: SlaResult)
    ensures r == Evaluate(e, metrics, cs, globalScore)
  {
    if !e.enabled {
      return Disabled(DisabledMessage);
    }
    var minScore := MinOverallScore(e.config);
    var scoreOk := globalScore >= minScore;
    var maxFail := MaxFailCategories(e.slaConfig);
    var fails := FailCount(cs);
    var failOk := fails as real <= maxFail;
    var named := RequiredPassCategories(e.slaConfig);
    if named.Err? {
      return Raised(named.message);
    }
    var required := named.value;
    var missing := RequiredPassViolations(required, cs);
    var requiredOk := |missing| == 0;
    var violations := CheckCustomQualityStandards(e, metrics, cs);
    var performanceOk := |violations| == 0;
    var level := DetermineLevel(e.slaConfig, globalScore);
    var info := Section(Section(e.slaConfig, LevelsKey), LevelValue(level));
    var recommendations := GenerateSlaRecommendations(scoreOk, failOk, requiredOk, performanceOk,
                                                      missing, violations, minScore, maxFail);
    r := Evaluated(
      StrOr(e.slaConfig, NameKey, DefaultSlaName),
      StrOr(e.slaConfig, DescriptionKey, DefaultSlaDescription),
      Compliance(level, StrOr(info, DescriptionKey, ""), scoreOk && failOk && requiredOk && performanceOk,
                 globalScore, minScore, scoreOk, maxFail, fails, failOk,
                 required, missing, requiredOk, violations, performanceOk),
      recommendations);
  }

  /**
   * The verdict: the minimum score is the scorer's pass threshold, the result is
   * compliant exactly when all four checks hold, the level follows the score alone,
   * the compliance line appears exactly when compliant, and at most three target
   * lines are written.
   */
  lemma EvaluationVerdict(e: Evaluator, metrics: Value, cs: seq<(string, Status)>, globalScore: real)
    requires e.enabled
    ensures Evaluate(e, metrics, cs, globalScore).Evaluated? <==> RequiredPassCategories(e.slaConfig).Ok?
    ensures var r := Evaluate(e, metrics, cs, globalScore);
      r.Evaluated? ==>
      var c := r.compliance;
      && c.minimumScore == MinOverallScore(e.config)
      && c.maxFailCategories == MaxFailCategories(e.slaConfig)
      && c.failCount == FailCount(cs)
      && c.requiredViolations == MissingPasses(RequiredPassCategories(e.slaConfig).value, cs)
      && c.violations == PerformanceViolations(e, metrics, cs)
      && (c.overallCompliant <==>
            globalScore >= c.minimumScore && c.failCount as real <= c.maxFailCategories
            && c.requiredViolations == [] && c.violations == [])
      && c.level == DetermineLevel(e.slaConfig, globalScore)
      && (AllMet in r.recommendations <==> c.overallCompliant)
      && TargetCount(r.recommendations) <= 3
  {
    if RequiredPassCategories(e.slaConfig).Ok? {
      var minScore := MinOverallScore(e.config);
      var maxFail := MaxFailCategories(e.slaConfig);
      var missing := MissingPasses(RequiredPassCategories(e.slaConfig).value, cs);
      var violations := PerformanceViolations(e, metrics, cs);
      AtMostThreeTargets(globalScore >= minScore, FailCount(cs) as real <= maxFail, |missing| == 0,
                         |violations| == 0, missing, violations, minScore, maxFail);
      RecommendationLines(globalScore >= minScore, FailCount(cs) as real <= maxFail, |missing| == 0,
                          |violations| == 0, missing, violations, minScore, maxFail);
    }
  }

  /** The compliance level ignores the four checks: only the score and the configured minimums decide it. */
  lemma LevelIgnoresChecks(e: Evaluator, m1: Value, m2: Value, cs1: seq<(string, Status)>,
                           cs2: seq<(string, Status)>, score: real)
    requires e.enabled
    ensures Evaluate(e, m1, cs1, score).Evaluated? <==> Evaluate(e, m2, cs2, score).Evaluated?
    ensures Evaluate(e, m1, cs1, score).Evaluated? ==>
      Evaluate(e, m1, cs1, score).compliance.level == Evaluate(e, m2, cs2, score).compliance.level
  {
  }

  /** A required category the scorer never produced is a violation, and the result is not compliant. */
  lemma MissingRequiredViolates(e: Evaluator, metrics: Value, cs: seq<(string, Status)>, score: real, c: string)
    requires e.enabled
    requires RequiredPassCategories(e.slaConfig).Ok?
    requires c in RequiredPassCategories(e.slaConfig).value && c !in Keys(cs)
    ensures c in Evaluate(e, metrics, cs, score).compliance.requiredViolations
    ensures !Evaluate(e, metrics, cs, score).compliance.overallCompliant
  {
    EvaluationVerdict(e, metrics, cs, score);
  }

  /**
   * Under a configuration without `quality_standards`, the only possible performance
   * violation is exposure clipping.
   */
  lemma NoStandardsOnlyClipping(e: Evaluator, metrics: Value, cs: seq<(string, Status)>, i: nat)
    requires e.qualityStandards == Obj([])
    requires i < |PerformanceViolations(e, metrics, cs)|
    ensures PerformanceViolations(e, metrics, cs)[i].Clipping?
  {
    ViolationOrigins(e, metrics, cs, i);
  }

  // ---------------------------------------------------------------------------
  // get_sla_summary_for_batch

  const EnabledKey: string := "enabled"
  const ComplianceKey: string := "compliance"
  const LevelKey: string := "level"

  /** The levels of the enabled results, in order (`'unknown'` when a result has none). */
  function EnabledLevels(results: seq<Value>): (r: seq<string>)
    ensures |r| <= |results|
  {
    if results == [] then []
    else
      var last := results[|results| - 1];
      EnabledLevels(results[..|results| - 1])
      + (if TruthyOr(last, EnabledKey, false) then [StrOr(Section(last, ComplianceKey), LevelKey, "unknown")] else [])
  }

  /** `d.get(k, 0)` on a counter dict. */
  function CountOf(d: seq<(string, nat)>, k: string): nat
  {
    match Get(d, k)
    case Some(n) => n
    case None => 0
  }

  /** The `compliance_counts` dict after counting the given levels. */
  function LevelCounts(levels: seq<string>): seq<(string, nat)>
  {
    if levels == [] then []
    else
      var prev := LevelCounts(levels[..|levels| - 1]);
      var l := levels[|levels| - 1];
      Put<nat>(prev, l, CountOf(prev, l) + 1)
  }

  /** Each level is counted as often as it occurs. */
  lemma {:induction false} LevelCountsCount(levels: seq<string>, l: string)
    ensures CountOf(LevelCounts(levels), l) == multiset(levels)[l]
    decreases |levels|
  {
    if levels != [] {
      var init := levels[..|levels| - 1];
      var last := levels[|levels| - 1];
      var prev := LevelCounts(init);
      var n: nat := CountOf(prev, last) + 1;
      assert LevelCounts(levels) == Put(prev, last, n);
      LevelCountsCount(init, l);
      assert levels == init + [last];
      assert multiset(levels) == multiset(init) + multiset{last};
      if l == last {
        LevelCountsCount(init, last);
        GetPutSame(prev, last, n);
      } else {
        GetPutOther(prev, last, n, l);
      }
    }
  }

  /** The counter's keys are exactly the levels seen. */
  lemma {:induction false} LevelCountsKeys(levels: seq<string>, l: string)
    ensures l in Keys(LevelCounts(levels)) <==> l in levels
    decreases |levels|
  {
    if levels != [] {
      var init := levels[..|levels| - 1];
      var last := levels[|levels| - 1];
      var prev := LevelCounts(init);
      var n: nat := CountOf(prev, last) + 1;
      assert LevelCounts(levels) == Put(prev, last, n);
      LevelCountsKeys(init, l);
      assert levels == init + [last];
      PutKeys(prev, last, n);
    }
  }

  /** `count / total * 100`. */
  function Share(count: nat, total: nat): real
    requires total > 0
  {
    count as real / total as real * 100.0
  }

  /** A share of at most the total lies in [0, 100]. */
  lemma ShareBounds(count: nat, total: nat)
    requires 0 < total && count <= total
    ensures 0.0 <= Share(count, total) <= 100.0
  {
    assert count as real / total as real <= 1.0;
  }

  /** `compliance_percentages`: each count as a share of the total, in percent. */
  function Percentages(counts: seq<(string, nat)>, total: nat): (r: seq<(string, real)>)
    requires total > 0
    ensures Keys(r) == Keys(counts)
    ensures forall i :: 0 <= i < |r| ==> r[i].1 == Share(counts[i].1, total)
  {
    if counts == [] then []
    else [(counts[0].0, Share(counts[0].1, total))] + Percentages(counts[1..], total)
  }

  datatype BatchSummary =
    | BatchDisabled
    | NoResults(message: string)
    | Summary(name: string, total: nat, excellent: nat, compliant: nat, warning: nat, nonCompliant: nat,
              counts: seq<(string, nat)>)

  const NoResultsMessage: string := "No SLA results to summarize"
  const BatchSlaName: string := "Quality SLA"

  /** `get_sla_summary_for_batch`. */
  function SlaBatchSummary(e: Evaluator, results: seq<Value>): (s: BatchSummary)
    ensures !e.enabled <==> s == BatchDisabled
    ensures e.enabled ==> (s.NoResults? <==> EnabledLevels(results) == [])
  {
    if !e.enabled then BatchDisabled
    else
      var levels := EnabledLevels(results);
      if levels == [] then NoResults(NoResultsMessage)
      else
        var counts := LevelCounts(levels);
        var total := |levels|;
        Summary(StrOr(e.slaConfig, NameKey, BatchSlaName), total,
                CountOf(counts, ExcellentValue), CountOf(counts, CompliantValue), CountOf(counts, WarningValue),
                CountOf(counts, NonCompliantValue), counts)
  }

  /** `compliant_count`: the compliant and excellent results together. */
  function CompliantCount(s: BatchSummary): nat
    requires s.Summary?
  {
    CountOf(s.counts, CompliantValue) + CountOf(s.counts, ExcellentValue)
  }

  /** `overall_compliance_rate`: the compliant and excellent share, in percent. */
  function ComplianceRate(s: BatchSummary): real
    requires s.Summary? && s.total > 0
  {
    Share(CompliantCount(s), s.total)
  }

  /** `compliance_percentages`. */
  function CompliancePercentages(s: BatchSummary): seq<(string, real)>
    requires s.Summary? && s.total > 0
  {
    Percentages(s.counts, s.total)
  }

  /**
   * Only enabled results count; the breakdown counts each level's occurrences and the
   * compliance rate is the excellent and compliant share, in percent.
   */
  lemma BatchSummaryCounts(e: Evaluator, results: seq<Value>)
    ensures var s := SlaBatchSummary(e, results);
      s.Summary? ==>
        var levels := EnabledLevels(results);
        && s.total == |levels| > 0
        && s.excellent == multiset(levels)[ExcellentValue]
        && s.compliant == multiset(levels)[CompliantValue]
        && s.warning == multiset(levels)[WarningValue]
        && s.nonCompliant == multiset(levels)[NonCompliantValue]
  {
    var s := SlaBatchSummary(e, results);
    if s.Summary? {
      var levels := EnabledLevels(results);
      var counts := LevelCounts(levels);
      assert s.excellent == CountOf(counts, ExcellentValue) && s.compliant == CountOf(counts, CompliantValue);
      assert s.warning == CountOf(counts, WarningValue) && s.nonCompliant == CountOf(counts, NonCompliantValue);
      LevelCountsCount(levels, ExcellentValue);
      LevelCountsCount(levels, CompliantValue);
      LevelCountsCount(levels, WarningValue);
      LevelCountsCount(levels, NonCompliantValue);
    }
  }

  /**
   * The compliance rate counts exactly the excellent and compliant results among the
   * enabled ones, and lies in [0, 100].
   */
  lemma BatchRate(e: Evaluator, results: seq<Value>)
    ensures var s := SlaBatchSummary(e, results);
      s.Summary? ==>
        var levels := EnabledLevels(results);
        && s.total == |levels| > 0
        && CompliantCount(s) == multiset(levels)[CompliantValue] + multiset(levels)[ExcellentValue]
        && CompliantCount(s) <= s.total
  {
    var s := SlaBatchSummary(e, results);
    if s.Summary? {
      BatchSummaryCounts(e, results);
      FourLevelsBound(EnabledLevels(results));
    }
  }

  /** The compliance rate lies in [0, 100]. */
  lemma BatchRateBounds(e: Evaluator, results: seq<Value>)
    ensures var s := SlaBatchSummary(e, results);
      s.Summary? ==> 0.0 <= ComplianceRate(s) <= 100.0
  {
    var s := SlaBatchSummary(e, results);
    if s.Summary? {
      BatchRate(e, results);
      ShareBounds(CompliantCount(s), s.total);
    }
  }

  /** An enabled evaluation result at the given level, as the batch summary reads it. */
  function LevelResult(level: string): Value
  {
    Obj([(EnabledKey, Bool(true)), (ComplianceKey, Obj([(LevelKey, Str(level))]))])
  }

  lemma LevelResultReads(level: string)
    ensures TruthyOr(LevelResult(level), EnabledKey, false)
    ensures StrOr(Section(LevelResult(level), ComplianceKey), LevelKey, "unknown") == level
  {
    var r := LevelResult(level);
    var inner := Obj([(LevelKey, Str(level))]);
    assert r.fields[0].0 == EnabledKey;
    assert Lookup(r, EnabledKey) == Some(Bool(true));
    assert EnabledKey != ComplianceKey by { assert EnabledKey[0] != ComplianceKey[0]; }
    assert r.fields[1..] == [(ComplianceKey, inner)];
    assert Get(r.fields, ComplianceKey) == Get(r.fields[1..], ComplianceKey);
    assert Section(r, ComplianceKey) == inner;
    assert Lookup(inner, LevelKey) == Some(Str(level));
  }

  /** Results at the given levels, in order. */
  function LevelResults(levels: seq<string>): (r: seq<Value>)
    ensures |r| == |levels|
  {
    if levels == [] then [] else LevelResults(levels[..|levels| - 1]) + [LevelResult(levels[|levels| - 1])]
  }

  lemma {:induction false} EnabledLevelsOfResults(levels: seq<string>)
    ensures EnabledLevels(LevelResults(levels)) == levels
    decreases |levels|
  {
    if levels != [] {
      var init := levels[..|levels| - 1];
      EnabledLevelsOfResults(init);
      var r := LevelResults(levels);
      assert r[..|r| - 1] == LevelResults(init);
      LevelResultReads(levels[|levels| - 1]);
      assert levels == init + [levels[|levels| - 1]];
    }
  }

  /**
   * Levels excellent, compliant, warning, non_compliant, compliant give five results,
   * a breakdown of 1/2/1/1 and three compliant ones.
   */
  lemma MixedBatchExample(e: Evaluator)
    requires e.enabled
    ensures var s := SlaBatchSummary(e, LevelResults([ExcellentValue, CompliantValue, WarningValue,
                                                      NonCompliantValue, CompliantValue]));
      && s.Summary? && s.total == 5
      && s.excellent == 1 && s.compliant == 2 && s.warning == 1 && s.nonCompliant == 1
      && CompliantCount(s) == 3
  {
    var levels := [ExcellentValue, CompliantValue, WarningValue, NonCompliantValue, CompliantValue];
    var results := LevelResults(levels);
    EnabledLevelsOfResults(levels);
    BatchSummaryCounts(e, results);
    BatchRate(e, results);
    MixedLevelCounts();
  }

  /** The mixed batch's compliance rate is 60%. */
  lemma MixedBatchRate(e: Evaluator)
    requires e.enabled
    ensures var s := SlaBatchSummary(e, LevelResults([ExcellentValue, CompliantValue, WarningValue,
                                                      NonCompliantValue, CompliantValue]));
      s.Summary? && s.total > 0 && ComplianceRate(s) == 60.0
  {
    MixedBatchExample(e);
    assert Share(3, 5) == 60.0;
  }

  lemma MixedLevelCounts()
    ensures var m := multiset([ExcellentValue, CompliantValue, WarningValue, NonCompliantValue, CompliantValue]);
      m[ExcellentValue] == 1 && m[CompliantValue] == 2 && m[WarningValue] == 1 && m[NonCompliantValue] == 1
  {
  }

  /** The breakdown never exceeds the total: levels other than the four are counted nowhere in it. */
  lemma BreakdownBounded(e: Evaluator, results: seq<Value>)
    ensures var s := SlaBatchSummary(e, results);
      s.Summary? ==> s.excellent + s.compliant + s.warning + s.nonCompliant <= s.total
  {
    BatchSummaryCounts(e, results);
    FourLevelsBound(EnabledLevels(results));
  }

  /** Counts of four distinct levels add up to at most the number of levels. */
  lemma {:induction false} FourLevelsBound(levels: seq<string>)
    ensures var m := multiset(levels);
      m[ExcellentValue] + m[CompliantValue] + m[WarningValue] + m[NonCompliantValue] <= |levels|
    decreases |levels|
  {
    if levels != [] {
      var init := levels[..|levels| - 1];
      FourLevelsBound(init);
      assert levels == init + [levels[|levels| - 1]];
    }
  }

  /** The loop that fills `compliance_counts`. */
  method CountLevels(levels: seq<string>) returns (counts: seq<(string, nat)>)
    ensures counts == LevelCounts(levels)
  {
    counts := [];
    var i := 0;
    while i < |levels|
      invariant 0 <= i <= |levels|
      invariant counts == LevelCounts(levels[..i])
    {
      assert levels[..i + 1][..i] == levels[..i];
      var level := levels[i];
      counts := Put<nat>(counts, level, CountOf(counts, level) + 1);
      i := i + 1;
    }
    assert levels[..i] == levels;
  }

  /** `get_sla_summary_for_batch` with its counting loop. */
  method GetSlaSummaryForBatch(e: Evaluator, results: seq<Value>) returns (s: BatchSummary)
    ensures s == SlaBatchSummary(e, results)
  {
    if !e.enabled {
      return BatchDisabled;
    }
    var levels := EnabledLevels(results);
    if levels == [] {
      return NoResults(NoResultsMessage);
    }
    var counts := CountLevels(levels);
    var total := |levels|;
    s := Summary(StrOr(e.slaConfig, NameKey, BatchSlaName), total,
                 CountOf(counts, ExcellentValue), CountOf(counts, CompliantValue), CountOf(counts, WarningValue),
                 CountOf(counts, NonCompliantValue), counts);
  }
}
