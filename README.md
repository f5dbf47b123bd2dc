# ImageQualityAnalyze verdict logic in Dafny

This project models the rule logic of ImageQualityAnalyze, a document-scan quality analyzer.
The analyzer runs pixel measurements on a scanned page (sharpness, exposure, geometry,
completeness, format and so on). Rules then turn those numbers into per-category statuses
(PASS, WARN, FAIL), a weighted global score, a star band, SLA compliance levels, batch
summaries and recommendation lists. The model covers those rules, the configuration
algebra, the integer and grid helpers the metrics use, the orchestration of the analyzer,
and the helper scripts for focus detection, foreign-object detection and export file names.

Every score and threshold is a `real`, so comparisons and weighted means are exact. Pixel
numerics that live in OpenCV or numpy are parameters of the model: Laplacian variance, Hough
lines, Canny edges, contours, Gaussian blur, LAB conversion, standard deviations and
polynomial fits. The model never reasons about how such a library computes a value, only about
what the rules do with it. Image loading, PIL metadata, the progress callback, the clock and the
analyzer call inside the helper scripts are parameters too. Python dicts are modelled as
insertion-ordered sequences of key/value pairs (`Values.Value`), because category, action
and recommendation order follow insertion order.

Modules, one per source file:

- `Values`: the JSON-like value type with Python dict lookup and update semantics.
- `Stats`: numpy's median, mean, min, max, range and linear-interpolation percentile.
- `Scoring`: `QualityScorer` — the per-category rules, status scores, the weighted global
  score, star bands, the critical override and the action items.
- `Sla`: `SLAEvaluator` — the four compliance checks, violation details, the compliance
  level, recommendations and the batch summary.
- `Config`: `DEFAULT_CONFIG`, the recursive `merge_configs`, the profiles, `load_profile`,
  `list_profiles` and the schema's nested requirements.
- `MaskUtils`, `BaseMetrics`: the document bounding box, the tile grid, empty-input
  percentiles, luminance, the mask-method dispatch and the metric name.
- `Completeness`, `BorderBackground`, `Geometry`, `FormatIntegrity`, `Exposure`,
  `DocumentShadow`: the rule parts of each metric computer, including the Bresenham line
  walk, the clipping counts, the uniformity tile rule, the illumination map, and the shadow
  width, sampling, classification and recommendations.
- `Analyzer`: the `ImageQualityAnalyzer` class — report assembly, the per-computer failure
  isolation, the batch loop, `update_config`, the metadata fallback and the CSV row filter.
- `CustomFocus`, `EnhancedForeignObjects`, `ForeignObjectsIntegration`, `DemoFocus`,
  `FilenameGeneration`: the helper scripts' classification, combination, counting and
  naming rules.

Where the repository's documentation and its code disagree, the model follows the code:

- The SLA minimum score is `scoring.pass_score_threshold`, not
  `sla.requirements.min_overall_score` (image_quality_analyzer/sla.py:56-58).
- The configuration schema accepts `{'invalid': 'config'}`. It has no required top-level
  keys, although tests/test_basic.py:44-50 expects that input to be rejected.
- The analyzer registers eleven computers and no document-shadow computer, and it never
  calls the SLA evaluator (image_quality_analyzer/analyzer.py:40-52).
- foreign_objects_integration.py imports the package path `image_quality_analyzer.core`,
  which does not exist, so its analyzer is never available (`ForeignObjectsIntegration.AnalyzerAvailable`).
- Where the code has an evident bug (see Findings), the entry points keep the code's behaviour. An
  empty document mask makes the foreign-object detector raise a KeyError, which the integration
  stores while the image keeps its main-stage verdict. Report names test system folders the way the
  script does. The corrected definitions are separate members with their own proofs.

## Model

| member | source | states |
|---|---|---|
| Scoring.ParseStatus | image_quality_analyzer/scoring.py:9-12 | `Status(v)` succeeds only on a status's own value string |
| Scoring.StatusValueRoundTrip | image_quality_analyzer/scoring.py:9-12 | parsing a status's value gives that status back |
| Scoring.StatusToScore | image_quality_analyzer/scoring.py:266-274 | the score is in [0, 1], is 1.0 exactly for PASS and 0.0 exactly for FAIL |
| Scoring.ScoreFallsWithSeverity | image_quality_analyzer/scoring.py:266-274 | a worse status never scores higher (PASS 1.0 > WARN 0.75 > FAIL 0.0) |
| Scoring.HigherIsBetterMonotone | image_quality_analyzer/scoring.py:111-124 | for higher-is-better rules (sharpness, contrast), raising the measure never worsens the status |
| Scoring.LowerIsBetterMonotone | image_quality_analyzer/scoring.py:168-181 | for lower-is-better rules (skew, noise, margins), raising the measure never improves the status |
| Scoring.LowerIsBetterAtLimits | image_quality_analyzer/scoring.py:176-181 | comparisons are strict `>`: a value equal to the warn limit is WARN, equal to the pass limit is PASS, anything above the warn limit is FAIL |
| Scoring.HigherIsBetterAtLimits | image_quality_analyzer/scoring.py:119-124 | comparisons are strict `<`: a value at the warn limit is WARN, at the pass limit is PASS |
| Scoring.ScoreCompleteness | image_quality_analyzer/scoring.py:88-99 | completeness is never WARN, and an edge touch always fails |
| Scoring.ScoreForeignObjects | image_quality_analyzer/scoring.py:101-109 | foreign objects are never FAIL, and WARN exactly when the flag is set |
| Scoring.ScoreExposure | image_quality_analyzer/scoring.py:126-151 | a shadow or highlight clip above its limit fails |
| Scoring.ScoreBorderBackground | image_quality_analyzer/scoring.py:183-208 | a background median above the luminance limit fails whatever the margins; otherwise the status is the lower-is-better rule on the widest margin ratio |
| Scoring.ScoreColor | image_quality_analyzer/scoring.py:225-237 | colour is never FAIL, and disabled colour checks pass |
| Scoring.ScoreFormatIntegrity | image_quality_analyzer/scoring.py:239-249 | format integrity is never WARN, and a disallowed format fails |
| Scoring.ScoreResolution | image_quality_analyzer/scoring.py:251-264 | resolution is never WARN, and fails exactly when the smaller DPI is below `min_dpi_text` |
| Scoring.CategoryStatusRange | image_quality_analyzer/scoring.py:58-86 | through the dispatcher, completeness, format integrity and resolution never warn; foreign objects and colour never fail |
| Scoring.SharpnessDefaultCases | image_quality_analyzer/scoring.py:111-124 | under the default sharpness thresholds 200 passes, 130 warns, 100 fails, and a value at the warn threshold warns |
| Scoring.ScoredKeys | image_quality_analyzer/scoring.py:43-48 | a category is scored exactly when it is a metric category and the config has a key for it |
| Scoring.CategoryStatusDict | image_quality_analyzer/scoring.py:37-56 | `category_status` has exactly the scored categories, in metric order, each with its rule's status on its own metrics |
| Scoring.ScoresOf | image_quality_analyzer/scoring.py:49-51 | `category_scores` pairs every scored category with the number of its status |
| Scoring.ScoresOfPut | image_quality_analyzer/scoring.py:49-51 | assigning a status and assigning its score keep the two dicts in step |
| Scoring.WeightNonNegative | image_quality_analyzer/scoring.py:20-32 | with non-negative configured weights every category weight is non-negative |
| Scoring.TotalWeightNonNegative | image_quality_analyzer/scoring.py:286 | with non-negative weights the total weight is non-negative |
| Scoring.WeightedSumNonNegative | image_quality_analyzer/scoring.py:290-293 | with non-negative weights and scores in [0, 1], the weighted sum is non-negative |
| Scoring.WeightedSumBounds | image_quality_analyzer/scoring.py:286-294 | with non-negative weights and scores in [0, 1], the weighted sum is at most the total weight |
| Scoring.WeightedScoreBounds | image_quality_analyzer/scoring.py:286-294 | the global score is in [0, 1] whenever the configured weights are non-negative |
| Scoring.AllPassFullScore | image_quality_analyzer/scoring.py:286-294 | when every category passes the weighted sum equals the total weight |
| Scoring.StarsAgreeWithStatus | image_quality_analyzer/scoring.py:301-315 | 3 or 4 stars mean pass, 2 warn, 1 fail; a critical failure is always 1 star and fail |
| Scoring.StarsMonotone | image_quality_analyzer/scoring.py:301-315 | a higher score never earns fewer stars |
| Scoring.StarsAtThresholds | image_quality_analyzer/scoring.py:304-315 | the star bands are inclusive lower bounds: 0.90 gives 4, the pass threshold 3, the warn threshold 2 |
| Scoring.GlobalScore | image_quality_analyzer/scoring.py:276-326 | any FAIL among completeness, border_background, resolution or geometry forces 1 star, fail and `critical_fail`; the actions are those of the action generator |
| Scoring.ActionItems | image_quality_analyzer/scoring.py:328-339 | at most one action per category |
| Scoring.Flagged | image_quality_analyzer/scoring.py:328-339 | the warn and fail categories, in order |
| Scoring.ActionsMatchFlagged | image_quality_analyzer/scoring.py:328-361 | exactly one action per warn/fail category, in category order: the fail mark or the warning sign followed by the category's mapped action, or `Review {category} settings` when unmapped |
| Scoring.NoActionsIffAllPass | image_quality_analyzer/scoring.py:328-339 | there is no action exactly when every scored category passed |
| Scoring.GenerateActionItems | image_quality_analyzer/scoring.py:328-339 | the append loop computes exactly the action list above |
| Scoring.ScoreAllCategories | image_quality_analyzer/scoring.py:37-56 | the loop builds `category_status` and the global result as specified above |
| Scoring.HigherIsBetter | image_quality_analyzer/scoring.py:119-124 | definition: the shared higher-is-better grading, FAIL below the warn limit and WARN below the pass limit; proved about in HigherIsBetterMonotone and HigherIsBetterAtLimits |
| Scoring.LowerIsBetter | image_quality_analyzer/scoring.py:176-181 | definition: the shared lower-is-better grading, FAIL above the warn limit and WARN above the pass limit; proved about in LowerIsBetterMonotone and LowerIsBetterAtLimits |
| Scoring.MaxSideRatio | image_quality_analyzer/scoring.py:191-196 | definition: the largest of the four margin ratios, each 0.0 when missing; used by the border rule |
| Scoring.Weight | image_quality_analyzer/scoring.py:20-24 | definition: `category_weights.get(cat, 1.0)` over the three configured weights; proved about in WeightNonNegative |
| Scoring.CriticalFail | image_quality_analyzer/scoring.py:280-284 | definition: a FAIL on any of completeness, border_background, resolution or geometry; stated by GlobalScore |
| Scoring.StatusValue | image_quality_analyzer/scoring.py:9-12 | definition without a contract of its own: the enum values `pass`, `warn`, `fail`; ParseStatus and StatusValueRoundTrip state that it inverts |
| Scoring.ScoreSharpness | image_quality_analyzer/scoring.py:111-124 | definition: `laplacian_var` (0.0 when missing) graded higher-is-better against `min_laplacian_variance` (150) and `warn_laplacian_variance` (120); proved about in HigherIsBetterMonotone, HigherIsBetterAtLimits and SharpnessDefaultCases |
| Scoring.ScoreContrast | image_quality_analyzer/scoring.py:153-166 | definition: `global_contrast` (0.0 when missing) graded higher-is-better against 0.20 and 0.15; proved about in HigherIsBetterMonotone |
| Scoring.ScoreGeometry | image_quality_analyzer/scoring.py:168-181 | definition: `skew_angle_abs` (0.0 when missing) graded lower-is-better against 1 and 3 degrees; proved about in LowerIsBetterMonotone and Geometry.ScoredBySkew |
| Scoring.ScoreNoise | image_quality_analyzer/scoring.py:210-223 | definition: `bg_noise_std` (0.0 when missing) graded lower-is-better against 0.04 and 0.06; proved about in LowerIsBetterMonotone |
| Scoring.ScoreCategory | image_quality_analyzer/scoring.py:58-86 | definition: the eleven-way dispatch on the category with `config.get(category, {})`, and PASS for any other category; proved about in CategoryStatusRange |
| Scoring.CategoryStatus | image_quality_analyzer/scoring.py:37-48 | definition: the statuses of the categories the config has a key for, in metric order; proved about in ScoredKeys and CategoryStatusDict |
| Scoring.ConfiguredWeights | image_quality_analyzer/scoring.py:18-31 | definition: the three configured weights read from `scoring` with default 1.0, the other categories weighing 1.0; proved about in WeightNonNegative |
| Scoring.TotalWeight | image_quality_analyzer/scoring.py:285 | definition: the sum of the scored categories' weights; proved about in TotalWeightNonNegative |
| Scoring.WeightedSum | image_quality_analyzer/scoring.py:289-292 | definition: the sum of score times weight; proved about in WeightedSumNonNegative, WeightedSumBounds and AllPassFullScore |
| Scoring.WeightedScore | image_quality_analyzer/scoring.py:284-292 | definition: the weighted sum over the total weight, 0.0 for a zero total; proved about in WeightedScoreBounds |
| Scoring.Stars | image_quality_analyzer/scoring.py:294-313 | definition: the critical override, then the bands 0.90, `pass_score_threshold` (0.80) and `warn_score_threshold` (0.65); proved about in StarsAgreeWithStatus, StarsMonotone and StarsAtThresholds |
| Scoring.BaseAction | image_quality_analyzer/scoring.py:344-356 | definition: the category's entry of the action map, else `Review {category} settings`; used by ActionsMatchFlagged |
| Scoring.CategoryAction | image_quality_analyzer/scoring.py:341-361 | definition: the fail mark or the warning sign before the base action; used by ActionsMatchFlagged |
| Sla.DetermineLevel | image_quality_analyzer/sla.py:217-232 | excellent exactly when the score reaches the excellent minimum; non_compliant exactly when it is below all three minimums |
| Sla.LevelMonotone | image_quality_analyzer/sla.py:217-232 | a higher score never gives a worse level, whatever minimums are configured |
| Sla.DefaultLevelBands | image_quality_analyzer/sla.py:221-232 | without configured levels the minimums are 0.90, 0.75 and 0.60, each inclusive |
| Sla.StatusesOf | image_quality_analyzer/sla.py:63 | the statuses of `category_status`, in order |
| Sla.FailCount | image_quality_analyzer/sla.py:63 | the failure count is at most the number of categories |
| Sla.FailCountCounts | image_quality_analyzer/sla.py:63 | the failure count is the number of FAIL statuses |
| Sla.MissingPasses | image_quality_analyzer/sla.py:67-72 | a required category is a violation exactly when its status is not PASS, including when it has no status at all |
| Sla.RequiredPassViolations | image_quality_analyzer/sla.py:67-72 | the collecting loop computes exactly the missing passes |
| Sla.StandardOf | image_quality_analyzer/sla.py:150-196 | the five categories with a quality standard (sharpness, contrast, resolution, geometry, exposure), each found under its own key |
| Sla.StandardRoundTrip | image_quality_analyzer/sla.py:150-196 | every standard is found under its own key |
| Sla.CategoryThreshold | image_quality_analyzer/sla.py:148-152 | a missing or zero `threshold` is no threshold |
| Sla.StandardViolation | image_quality_analyzer/sla.py:143-215 | a violation is about its own standard; only exposure gives a clipping record; without a threshold there is no violation; a below-record has actual < threshold, an above-record actual > threshold, a clipping record a clip above its limit |
| Sla.ViolationDetails | image_quality_analyzer/sla.py:143-215 | a violation comes only from a category that has a standard |
| Sla.PerformanceViolations | image_quality_analyzer/sla.py:128-141 | at most one violation per failing category |
| Sla.ViolationOrigins | image_quality_analyzer/sla.py:128-141 | every violation comes from a FAIL category whose check produced it |
| Sla.ViolationsDistinct | image_quality_analyzer/sla.py:128-141 | in a dict of statuses no standard is violated twice |
| Sla.CheckCustomQualityStandards | image_quality_analyzer/sla.py:128-141 | the loop computes exactly the performance violations |
| Sla.Targets | image_quality_analyzer/sla.py:264-267 | one performance-target line per violation, in order |
| Sla.TargetsCount | image_quality_analyzer/sla.py:264-267 | the target lines number as many as the violations |
| Sla.TargetCountAppend | image_quality_analyzer/sla.py:243-272 | target lines of concatenated recommendations add up |
| Sla.RequirementLines | image_quality_analyzer/sla.py:245-261 | each of the first three requirement lines appears exactly when its check failed, and never the all-met line |
| Sla.RequirementLinesHaveNoTargets | image_quality_analyzer/sla.py:245-261 | the requirement lines hold no target line |
| Sla.TopViolations | image_quality_analyzer/sla.py:264 | at most three violations are shown |
| Sla.RecommendationLines | image_quality_analyzer/sla.py:234-272 | each failed requirement has its line, and "All requirements met" appears exactly when all four checks pass |
| Sla.AtMostThreeTargets | image_quality_analyzer/sla.py:263-267 | at most three performance-target lines, however many violations there are |
| Sla.GenerateSlaRecommendations | image_quality_analyzer/sla.py:234-272 | the loop over the first three violations computes exactly the recommendation list |
| Sla.Evaluate | image_quality_analyzer/sla.py:45-71 | when SLA is disabled the result is only the disabled message, and only then; an enabled evaluator raises exactly when reading the required-pass list does, with that list's message |
| Sla.EvaluateSlaCompliance | image_quality_analyzer/sla.py:30-126 | the two collecting loops compute exactly the evaluation, including its raise |
| Sla.EvaluationVerdict | image_quality_analyzer/sla.py:56-92 | an enabled evaluation completes exactly when the required-pass list reads; then the minimum is `scoring.pass_score_threshold`; `overall_compliant` holds exactly when score, fail count, required passes and performance all hold; the level is chosen from the score; all-met appears iff compliant; at most three target lines |
| Sla.LevelIgnoresChecks | image_quality_analyzer/sla.py:67-84 | whether the evaluation completes does not depend on metrics or statuses, and the compliance level depends only on the score |
| Sla.MissingRequiredViolates | image_quality_analyzer/sla.py:67-72 | when the required-pass list reads, a required category the scorer never produced is a violation and the result is not compliant |
| Sla.NoStandardsOnlyClipping | image_quality_analyzer/sla.py:143-215 | with no `quality_standards` the only possible violation is exposure clipping |
| Sla.EnabledLevels | image_quality_analyzer/sla.py:279-289 | the levels of the enabled results only |
| Sla.LevelCountsCount | image_quality_analyzer/sla.py:287-289 | each level is counted as often as it occurs |
| Sla.LevelCountsKeys | image_quality_analyzer/sla.py:287-289 | the counter's keys are exactly the levels seen |
| Sla.ShareBounds | image_quality_analyzer/sla.py:292-298 | a count of at most the total is a share in [0, 100] |
| Sla.Percentages | image_quality_analyzer/sla.py:292-294 | one percentage per counted level, each its count over the total |
| Sla.SlaBatchSummary | image_quality_analyzer/sla.py:274-312 | disabled evaluator gives `{enabled: False}`; otherwise no results are summarised exactly when no result is enabled |
| Sla.BatchSummaryCounts | image_quality_analyzer/sla.py:283-310 | only enabled results count and each breakdown entry is its level's number of occurrences |
| Sla.BatchRate | image_quality_analyzer/sla.py:296-298 | the compliant count is compliant plus excellent, at most the total |
| Sla.BatchRateBounds | image_quality_analyzer/sla.py:296-298 | the compliance rate lies in [0, 100] |
| Sla.LevelResultReads | image_quality_analyzer/sla.py:279-288 | a fixture result is enabled and reads back its level |
| Sla.LevelResults | test_sla_functionality.py:176-182 | one fixture result per level |
| Sla.EnabledLevelsOfResults | image_quality_analyzer/sla.py:279-289 | the fixture results read back as their levels |
| Sla.MixedBatchExample | test_sla_functionality.py:176-184 | excellent, compliant, warning, non_compliant, compliant give total 5, breakdown 1/2/1/1 and three compliant |
| Sla.MixedBatchRate | test_sla_functionality.py:176-184 | that batch's compliance rate is 60% |
| Sla.BreakdownBounded | image_quality_analyzer/sla.py:305-310 | the four breakdown entries add up to at most the total |
| Sla.FourLevelsBound | image_quality_analyzer/sla.py:305-310 | counts of four distinct levels add up to at most the number of levels |
| Sla.CountLevels | image_quality_analyzer/sla.py:287-289 | the counting loop computes exactly the level counter |
| Sla.GetSlaSummaryForBatch | image_quality_analyzer/sla.py:274-312 | the method computes exactly the batch summary |
| Sla.MixedLevelCounts | test_sla_functionality.py:176-184 | the mixed batch holds one excellent, two compliant, one warning and one non-compliant level |
| Sla.LevelValue | image_quality_analyzer/sla.py:13-18 | definition: the four level values `excellent`, `compliant`, `warning`, `non_compliant`; used by the batch summary lemmas |
| Sla.NewEvaluator | image_quality_analyzer/sla.py:24-28 | definition: the evaluator keeps the config, its `sla` and `quality_standards` sections, and is enabled only by a truthy `sla.enabled` (default False); proved about in Evaluate and SlaBatchSummary |
| Sla.LevelMin | image_quality_analyzer/sla.py:219-223 | definition: `compliance_levels.<level>.min_score`, else the default; proved about in DetermineLevel and DefaultLevelBands |
| Sla.RequiredPassCategories | image_quality_analyzer/sla.py:67-71 | by default no names; a None, number or bool value is not iterable and raises TypeError; a string gives its one-character strings and a dict its keys; a list gives the names its entries spell, or the TypeError its entries cause |
| Sla.MaxFailCategories | image_quality_analyzer/sla.py:61-62 | definition: `requirements.max_fail_categories`, by default 1; used by EvaluationVerdict |
| Sla.MinOverallScore | image_quality_analyzer/sla.py:56-57 | definition: `scoring.pass_score_threshold`, by default 0.80; proved about in EvaluationVerdict |
| Sla.StandardName | image_quality_analyzer/sla.py:150-213 | definition: the `category` entry of each violation record (Sharpness, Contrast, Resolution, Geometry, Exposure) |
| Sla.MetricName | image_quality_analyzer/sla.py:150-213 | definition: the `metric` entry of each violation record (Laplacian Variance, Global Contrast, Minimum DPI, Skew Angle, Clipping) |
| Sla.CategoryViolation | image_quality_analyzer/sla.py:136-137 | definition: the violation details of one category under `quality_standards.get(category, {})`; proved about in ViolationDetails and ViolationOrigins |
| Sla.JoinComma | image_quality_analyzer/sla.py:258 | definition: `', '.join(names)` |
| Sla.SlaRecommendations | image_quality_analyzer/sla.py:234-272 | definition: the requirement lines in order, target lines for the first three violations, and the all-met line; proved about in RecommendationLines, AtMostThreeTargets and GenerateSlaRecommendations |
| Sla.CountOf | image_quality_analyzer/sla.py:289 | definition: `compliance_counts.get(level, 0)`; proved about in LevelCountsCount |
| Sla.LevelCounts | image_quality_analyzer/sla.py:284-289 | definition: the counter dict after each level adds one; proved about in LevelCountsCount, LevelCountsKeys and CountLevels |
| Sla.Share | image_quality_analyzer/sla.py:294 | definition: `count / total * 100`; proved about in ShareBounds |
| Sla.CompliantCount | image_quality_analyzer/sla.py:297 | definition: compliant plus excellent counts; proved about in BatchRate |
| Sla.ComplianceRate | image_quality_analyzer/sla.py:298 | definition: the compliant count's share of the total in percent; proved about in BatchRateBounds and MixedBatchRate |
| Sla.CompliancePercentages | image_quality_analyzer/sla.py:292-294 | definition: each counted level's share in percent; proved about in Percentages |
| Sla.RequiredNames | image_quality_analyzer/sla.py:67-71 | the list entries read as names exactly when all are strings, one name per entry in order; otherwise a list or dict entry raises TypeError (unhashable) at `.get`, and any other entry becomes a violation the `', '.join` refuses with TypeError at lines 257-258 |
| Sla.RequiredStringIsCharacters | image_quality_analyzer/sla.py:67-71 | the string "sharpness" as the required-pass value requires the letter "s" and not the category sharpness |
| Sla.RequiredEntries | image_quality_analyzer/sla.py:67-69 | definition: what the loop visits: a list's items, a string's characters, a dict's keys, nothing for a missing key, TypeError for any other value; proved about in RequiredPassCategories |
| Config.LoadDefaultConfig | image_quality_analyzer/config.py:284-286 | the copy has exactly the default's keys, each with the default's value |
| Config.MergeConfigs | image_quality_analyzer/config.py:318-328 | the merge loop computes `merge_configs`; an empty override gives back the base |
| Config.MergeFromKeys | image_quality_analyzer/config.py:321-326 | each loop step keeps every key seen so far and adds the override's keys |
| Config.MergeKeys | image_quality_analyzer/config.py:318-328 | the merged keys are exactly the union of both inputs' keys, base keys first in their order |
| Config.MergeFromGet | image_quality_analyzer/config.py:321-326 | from entry `i` on, keys of later override entries are merged into and all other keys keep their value |
| Config.MergeGet | image_quality_analyzer/config.py:318-328 | the override's value wins unless both values are dicts, which then merge recursively; keys only in the base keep its value |
| Config.MergeFromUnique | image_quality_analyzer/config.py:318-328 | merging two dicts introduces no duplicate key |
| Config.LoadProfile | image_quality_analyzer/config.py:383-389 | ValueError listing the available names exactly for an unknown name; otherwise a dict |
| Config.ProfileNames | image_quality_analyzer/config.py:332-380 | the three profile names, in order |
| Config.LoadStrictProfile | image_quality_analyzer/config.py:333-337 | the strict profile's configuration is the default one |
| Config.LoadLenientProfile | image_quality_analyzer/config.py:339-356 | the lenient profile is the default merged with its overrides |
| Config.LoadArchivalProfile | image_quality_analyzer/config.py:358-379 | the archival profile is the default merged with its overrides |
| Config.Listing | image_quality_analyzer/config.py:394-397 | one entry per profile, holding its name and description |
| Config.ListProfiles | image_quality_analyzer/config.py:392-397 | exactly the profile keys, each mapped to its name and description |
| Config.ListedIffLoads | image_quality_analyzer/config.py:383-397 | a name is listed exactly when it loads |
| Config.DefaultSectionAt | image_quality_analyzer/config.py:13-104 | each default section is found under its own name |
| Config.DefaultSections | image_quality_analyzer/config.py:13-104 | the default sections the profiles override |
| Config.LenientOverrideShape | image_quality_analyzer/config.py:342-355 | the lenient override's sections |
| Config.ArchivalOverrideShape | image_quality_analyzer/config.py:361-378 | the archival override's sections |
| Config.MergedSection | image_quality_analyzer/config.py:323-324 | a section both inputs hold as dicts is the merge of the two sections |
| Config.FlatMerge | image_quality_analyzer/config.py:321-326 | with no nested dict in the override, its keys win and every other key keeps the base's value |
| Config.ArchivalKeepsDefaults | image_quality_analyzer/config.py:358-379 | every section archival does not override is the default's |
| Config.ArchivalResolutionMerged | image_quality_analyzer/config.py:362-365 | archival `resolution` is the default section merged with the override |
| Config.ArchivalResolutionValues | image_quality_analyzer/config.py:362-365 | inside it the override's keys win and the rest keep the default |
| Config.ArchivalResolutionSection | image_quality_analyzer/config.py:362-365 | 400 dpi for text and 600 for archival use, other limits unchanged |
| Config.ArchivalSharpnessMerged | image_quality_analyzer/config.py:366-369 | archival `sharpness` is the default section merged with the override |
| Config.ArchivalSharpnessValues | image_quality_analyzer/config.py:366-369 | inside it the override's keys win and the rest keep the default |
| Config.ArchivalSharpnessSection | image_quality_analyzer/config.py:366-369 | Laplacian limits 200 and 160 |
| Config.ArchivalNoiseMerged | image_quality_analyzer/config.py:370-373 | archival `noise` is the default section merged with the override |
| Config.ArchivalNoiseValues | image_quality_analyzer/config.py:370-373 | inside it the override's keys win and the rest keep the default |
| Config.ArchivalNoiseSection | image_quality_analyzer/config.py:370-373 | noise limits 0.02 and 0.03 |
| Config.ArchivalFormatMerged | image_quality_analyzer/config.py:374-377 | archival `format_integrity` is the default section merged with the override |
| Config.ArchivalFormatValues | image_quality_analyzer/config.py:374-377 | inside it the override's keys win and the rest keep the default |
| Config.ArchivalFormatSection | image_quality_analyzer/config.py:374-377 | tiff/png only and a 16-bit minimum; the JPEG quality limit stays |
| Config.ArchivalProfile | tests/test_basic.py:59-62 | archival has `min_dpi_text` 400 and `bit_depth_min` 16 |
| Config.LenientKeepsDefaults | image_quality_analyzer/config.py:339-356 | every section lenient does not override is the default's |
| Config.LenientGeometryMerged | image_quality_analyzer/config.py:343-346 | lenient `geometry` is the default section merged with the override |
| Config.LenientGeometryValues | image_quality_analyzer/config.py:343-346 | inside it the override's keys win and the rest keep the default |
| Config.LenientGeometrySection | image_quality_analyzer/config.py:343-346 | skew limits 2 and 5 degrees |
| Config.LenientBorderMerged | image_quality_analyzer/config.py:347-350 | lenient `border_background` is the default section merged with the override |
| Config.LenientBorderValues | image_quality_analyzer/config.py:347-350 | inside it the override's keys win and the rest keep the default |
| Config.LenientBorderSection | image_quality_analyzer/config.py:347-350 | margin limits 0.15 and 0.20; background and luminance settings stay |
| Config.LenientSharpnessMerged | image_quality_analyzer/config.py:351-354 | lenient `sharpness` is the default section merged with the override |
| Config.LenientSharpnessValues | image_quality_analyzer/config.py:351-354 | inside it the override's keys win and the rest keep the default |
| Config.LenientSharpnessSection | image_quality_analyzer/config.py:351-354 | Laplacian limits 100 and 80 |
| Config.ValidateConfig | image_quality_analyzer/config.py:302-307 | succeeds, returning the config unchanged, exactly when the schema's required fields hold |
| Config.SchemaExamples | image_quality_analyzer/config.py:107-165 | the schema accepts `{'invalid': 'config'}` (no top-level key is required) and rejects a `resolution` section without `min_dpi_text` |
| Config.SchemaValidSections | image_quality_analyzer/config.py:107-165 | a dict whose checked sections hold their required keys passes |
| Config.DefaultSchemaValid | image_quality_analyzer/config.py:13-104 | the default configuration passes the schema |
| Config.LenientSchemaValid | image_quality_analyzer/config.py:339-356 | the lenient profile passes the schema |
| Config.ArchivalSchemaValid | image_quality_analyzer/config.py:358-379 | the archival profile passes the schema |
| Config.MergedValue | image_quality_analyzer/config.py:323-326 | definition: two dicts merge recursively, any other override value replaces the base's; proved about in MergeGet |
| Config.MergeFrom | image_quality_analyzer/config.py:322-326 | definition: the merge loop from the override's `i`-th entry on; proved about in MergeFromKeys, MergeFromGet and MergeFromUnique |
| Config.Merge | image_quality_analyzer/config.py:318-328 | definition: `merge_configs(base, override)`, the loop over the override from a copy of the base; proved about in MergeKeys, MergeGet and FlatMerge |
| Config.ProfileConfig | image_quality_analyzer/config.py:332-380 | definition: a profile's configuration, the default merged with its overrides |
| Config.LenientConfig | image_quality_analyzer/config.py:339-356 | definition: the lenient profile's `merge_configs` of the default and its overrides; proved about in LoadLenientProfile and the Lenient lemmas |
| Config.ArchivalConfig | image_quality_analyzer/config.py:358-379 | definition: the archival profile's `merge_configs` of the default and its overrides; proved about in LoadArchivalProfile and the Archival lemmas |
| Config.JoinNames | image_quality_analyzer/config.py:386 | definition: `", ".join(names)` of the profile keys |
| Config.Summary | image_quality_analyzer/config.py:395 | definition: a profile's listing entry of its name and description; proved about in Listing |
| MaskUtils.BitAnd | image_quality_analyzer/metrics/utils.py:37 | `bitwise_and` keeps a cell exactly where both masks have one, with the first mask's shape |
| MaskUtils.Binarize | image_quality_analyzer/metrics/base.py:77 | the output has the input's shape and is 1 exactly where the input is positive, else 0 |
| MaskUtils.CreateDocumentMask | image_quality_analyzer/metrics/base.py:43-77 | ValueError exactly for a method other than otsu, adaptive or combined |
| MaskUtils.DocumentMaskShape | image_quality_analyzer/metrics/base.py:77 | the mask has the image's height and width and holds only 0 and 1 |
| MaskUtils.CombinedNeedsBoth | image_quality_analyzer/metrics/utils.py:32-37 | without a contour, `combined` keeps only the cells both thresholdings keep |
| MaskUtils.RowSpan | image_quality_analyzer/metrics/utils.py:58-63 | the first and last non-zero column of a row; none exactly when the row has no non-zero cell |
| MaskUtils.MaskSpan | image_quality_analyzer/metrics/utils.py:58-63 | none exactly when the mask has no non-zero cell |
| MaskUtils.DocumentBbox | image_quality_analyzer/metrics/utils.py:51-65 | an empty mask gives `(0, 0, w, h)` |
| MaskUtils.MaskSpanEncloses | image_quality_analyzer/metrics/utils.py:62-63 | every non-zero cell lies inside the box |
| MaskUtils.MaskSpanTouches | image_quality_analyzer/metrics/utils.py:62-63 | each side of the box touches a non-zero cell |
| MaskUtils.BboxIsExtent | image_quality_analyzer/metrics/utils.py:58-65 | for a non-empty mask the box is the min/max column and row of the non-zero cells, with 0 ≤ x_min ≤ x_max < w and 0 ≤ y_min ≤ y_max < h |
| MaskUtils.EmptyMaskBbox | image_quality_analyzer/metrics/utils.py:59-60 | an empty mask gives the whole frame, whose maxima are exclusive |
| MaskUtils.RowTiles | image_quality_analyzer/metrics/utils.py:94-97 | a grid row has one tile per column step |
| MaskUtils.TileGrid | image_quality_analyzer/metrics/utils.py:79-99 | a zero tile size raises (as Python's `range` does); a negative one gives no tiles |
| MaskUtils.CeilSteps | image_quality_analyzer/metrics/utils.py:93-94 | `i` steps of `t` reach `n` exactly when `i` is `ceil(n / t)` |
| MaskUtils.RowOfPixel | image_quality_analyzer/metrics/utils.py:93-96 | a pixel row lies in grid row `y / t` and in no other |
| MaskUtils.RowStartsInside | image_quality_analyzer/metrics/utils.py:93 | every grid row starts inside the frame |
| MaskUtils.RowTilesAt | image_quality_analyzer/metrics/utils.py:94-97 | the `j`-th tile of a grid row starts at column `j * t`, clipped to the frame |
| MaskUtils.GridRowsLength | image_quality_analyzer/metrics/utils.py:93-97 | the grid holds `ceil(h / t) * ceil(w / t)` tiles |
| MaskUtils.RowTilesInFrame | image_quality_analyzer/metrics/utils.py:94-97 | each tile of a grid row is non-empty, inside the frame and starts at a multiple of `t` |
| MaskUtils.GridRowsInFrame | image_quality_analyzer/metrics/utils.py:93-97 | the same for every tile of the grid |
| MaskUtils.TilesInsideFrame | image_quality_analyzer/metrics/utils.py:79-99 | the tiles are row-major, start at multiples of the tile size, are clipped to (h, w), are non-empty and number `ceil(h/t) * ceil(w/t)` |
| MaskUtils.CoveringAppend | image_quality_analyzer/metrics/utils.py:97 | coverage counts of concatenated tile lists add up |
| MaskUtils.RowCovering | image_quality_analyzer/metrics/utils.py:94-97 | in one grid row a pixel is covered once if both its grid coordinates match, otherwise never |
| MaskUtils.GridCovering | image_quality_analyzer/metrics/utils.py:93-97 | over the first grid rows a pixel is covered once if its grid row is among them |
| MaskUtils.TilesPartitionFrame | image_quality_analyzer/metrics/utils.py:93-97 | the tiles partition the frame: every pixel lies in exactly one tile |
| MaskUtils.CreateTileGrid | image_quality_analyzer/metrics/utils.py:79-99 | the two nested loops compute exactly the tile grid |
| MaskUtils.CreateTileRow | image_quality_analyzer/metrics/utils.py:94-97 | the inner loop appends exactly the tiles of one grid row, each clipped to the frame |
| MaskUtils.NatString | image_quality_analyzer/metrics/utils.py:108 | the decimal text of a number is non-empty |
| MaskUtils.PercentileKey | image_quality_analyzer/metrics/utils.py:108 | every percentile key starts with `p` |
| MaskUtils.ZeroPercentilesKeys | image_quality_analyzer/metrics/utils.py:107-108 | on empty data the keys are exactly `p{p}` for the requested list, each 0.0 |
| MaskUtils.AllNanIsEmpty | image_quality_analyzer/metrics/utils.py:104-108 | input that is all NaN reads as empty data |
| MaskUtils.LuminanceBounds | image_quality_analyzer/metrics/utils.py:68-76 | an 8-bit pixel's luminance is in [0, 1]; it is 0 exactly for black and 1 for white |
| MaskUtils.LuminanceImage | image_quality_analyzer/metrics/utils.py:68-76 | the luminance image has the input's shape and is the luminance of each pixel |
| MaskUtils.Ceil | image_quality_analyzer/metrics/utils.py:93-94 | definition: the length of `range(0, n, t)` for a positive step; proved about in CeilSteps |
| MaskUtils.TileAt | image_quality_analyzer/metrics/utils.py:95-97 | definition: the tile of grid row `i`, column `j`, clipped to the frame; proved about in RowTilesAt and RowTilesInFrame |
| MaskUtils.GridRows | image_quality_analyzer/metrics/utils.py:93-97 | definition: the first `n` grid rows, row-major; proved about in GridRowsLength, GridRowsInFrame and GridCovering |
| MaskUtils.Covering | image_quality_analyzer/metrics/utils.py:93-97 | definition: how many tiles hold a pixel; proved about in RowCovering, GridCovering and TilesPartitionFrame |
| MaskUtils.ZeroPercentiles | image_quality_analyzer/metrics/utils.py:107-108 | definition: each requested percentile mapped to 0.0; proved about in ZeroPercentilesKeys |
| MaskUtils.PercentileDict | image_quality_analyzer/metrics/utils.py:110-111 | definition: each `p<k>` key paired with its value, in order; used by ComputePercentiles |
| MaskUtils.ComputePercentiles | image_quality_analyzer/metrics/utils.py:102-111 | definition: NaN entries dropped, then the zero dict on empty data or the percentile dict; proved about in AllNanIsEmpty and ZeroPercentilesKeys |
| MaskUtils.Luminance | image_quality_analyzer/metrics/utils.py:68-76 | definition: a gray level over 255, or 0.114 B + 0.587 G + 0.299 R over 255; proved about in LuminanceBounds and LuminanceImage |
| MaskUtils.TileAtInFrame | image_quality_analyzer/metrics/utils.py:93-97 | the tile of grid row `i`, column `j` is non-empty and lies inside the frame |
| MaskUtils.RowIndexInGrid | image_quality_analyzer/metrics/utils.py:93-96 | the grid row `y / t` of a pixel row below `n` is one of the `ceil(n / t)` grid rows |
| MaskUtils.RowOfPixelOnly | image_quality_analyzer/metrics/utils.py:93-96 | a pixel row lies in grid row `i` exactly when `i == y / t` |
| MaskUtils.ZeroPercentilesUnique | image_quality_analyzer/metrics/utils.py:107-108 | the zero dict has no repeated key |
| MaskUtils.ZeroPercentilesKeySet | image_quality_analyzer/metrics/utils.py:107-108 | a key is in the zero dict exactly when it is `p{p}` for a requested `p` |
| MaskUtils.ZeroPercentilesValues | image_quality_analyzer/metrics/utils.py:107-108 | every key of the zero dict maps to 0.0 |
| BaseMetrics.RemoveAll | image_quality_analyzer/metrics/base.py:15 | removing a word never lengthens the string |
| BaseMetrics.Lower | image_quality_analyzer/metrics/base.py:15 | lower-casing keeps the length and maps each character on its own |
| BaseMetrics.NameIsLowerCase | image_quality_analyzer/metrics/base.py:15 | a metric's name holds no upper-case ASCII letter and is never longer than the class name |
| BaseMetrics.LowerIdempotent | image_quality_analyzer/metrics/base.py:15 | lower-casing twice changes nothing more |
| BaseMetrics.RemoveAbsent | image_quality_analyzer/metrics/base.py:15 | a string with no occurrence of the word is left unchanged |
| BaseMetrics.RemoveSuffix | image_quality_analyzer/metrics/base.py:15 | a class name `X` + "Metrics", where `X` has no 'M', loses exactly the suffix |
| BaseMetrics.SharpnessName | image_quality_analyzer/metrics/sharpness.py:12 | `SharpnessMetrics` is named `sharpness` |
| BaseMetrics.DocumentShadowName | image_quality_analyzer/metrics/document_shadow.py:57 | `DocumentShadowMetric` has no "Metrics" in it, so its name is the whole class name lower-cased |
| Completeness.SliceBound | image_quality_analyzer/metrics/completeness.py:94-97 | Python's reading of a slice bound, negative ones counted from the end, lies in [0, n] |
| Completeness.Compute | image_quality_analyzer/metrics/completeness.py:36-57 | a config that is not a dict raises AttributeError at `config.get`; otherwise it raises exactly when `min_margin_px` is present and neither a bool nor a whole number: a string or None fails the comparisons of lines 38-43, a fractional number the slices of lines 94-97; otherwise the result is the measurement with the margin 8 when missing, the number itself, or 0/1 for a bool |
| Completeness.ComputeWithMargin | image_quality_analyzer/metrics/completeness.py:15-78 | with margin m the box is the document bbox; margins are (x_min, w−x_max, y_min, h−y_max); the edge-touch flag holds exactly when x_min ≤ m, y_min ≤ m, x_max ≥ w−m or y_max ≥ h−m; the violations are the strip check with m; coverage is 0.0 for an empty frame and the aspect ratio 0.0 for zero height |
| Completeness.MarginReads | image_quality_analyzer/metrics/completeness.py:37 | a config that is not a dict has no `get`; in a dict a missing margin reads 8, a whole number reads as itself, `True` reads 1 |
| Completeness.MarginRaises | image_quality_analyzer/metrics/completeness.py:37-43 | a fractional margin raises TypeError at the slices, a None or string margin TypeError at the comparisons |
| Completeness.MarginsNonNegative | image_quality_analyzer/metrics/completeness.py:46-49 | for any margin, all four margins are non-negative, for an empty mask as for any other |
| Completeness.CoverageBounds | image_quality_analyzer/metrics/completeness.py:31-34 | for any margin, the coverage lies in [0, 1] |
| Completeness.EmptyMaskFails | image_quality_analyzer/metrics/completeness.py:30-43 | an empty mask's bbox is the whole frame, so the edge touches for any non-negative margin and the scorer marks completeness FAIL |
| Completeness.StripsMatchBbox | image_quality_analyzer/metrics/completeness.py:80-104 | for a positive margin a side's strip holds a document pixel exactly when the box reaches into it |
| Completeness.ZeroMarginStrips | image_quality_analyzer/metrics/completeness.py:94-97 | with margin 0 the left and top strips are empty but `-0:` makes the right and bottom strips the whole mask |
| BaseMetrics.LowerChar | image_quality_analyzer/metrics/base.py:15 | definition: `lower()` on one character, ASCII letters only; proved about in Lower and LowerIdempotent |
| BaseMetrics.Name | image_quality_analyzer/metrics/base.py:14-15 | definition: the class name with every `Metrics` removed, lower-cased; proved about in NameIsLowerCase and RemoveSuffix |
| Completeness.MinMarginPx | image_quality_analyzer/metrics/completeness.py:37 | definition: `config.get('min_margin_px', 8)` as `int` comparisons and slices see it, with the AttributeError of a non-dict config and the TypeErrors of other values; proved about in MarginReads and MarginRaises |
| Completeness.CheckContentNearEdges | image_quality_analyzer/metrics/completeness.py:80-104 | definition: the four strips of width `margin` hold a non-zero cell, `-0:` being the whole axis; proved about in StripsMatchBbox and ZeroMarginStrips |
| Completeness.ToValue | image_quality_analyzer/metrics/completeness.py:59-78 | definition: the metrics dict with its coverage, edge flag, margins and bbox; its fields are read back by the scorer in ScoreCompleteness |
| BorderBackground.RatioOr0 | image_quality_analyzer/metrics/border_background.py:32-35 | the ratio times a positive denominator is the numerator; 0.0 for a zero denominator; non-negative for a non-negative numerator |
| BorderBackground.RowBackground | image_quality_analyzer/metrics/border_background.py:39-40 | a row gives no background pixel exactly when every mask cell `1 - v` wraps to 0 modulo 256 |
| BorderBackground.MarginsMatchCompleteness | image_quality_analyzer/metrics/border_background.py:59-64 | `margins_px` are the completeness margins (x_min, w−x_max, y_min, h−y_max) |
| BorderBackground.RatiosMatchMargins | image_quality_analyzer/metrics/border_background.py:31-35 | each ratio is the pixel margin over the document width (left, right) or height (top, bottom), and 0.0 when that dimension is 0 |
| BorderBackground.RatiosNonNegative | image_quality_analyzer/metrics/border_background.py:25-35 | all four ratios are non-negative |
| BorderBackground.NoBackground | image_quality_analyzer/metrics/border_background.py:39-40 | a mask of all ones leaves no background pixel |
| BorderBackground.NoBackgroundStats | image_quality_analyzer/metrics/border_background.py:42-49 | with no background pixel the median, mean and std are all 0.0 |
| BorderBackground.SumBounds | image_quality_analyzer/metrics/border_background.py:44 | a sum of values in [0, 1] lies between 0 and their count |
| BorderBackground.RowBackgroundIn | image_quality_analyzer/metrics/border_background.py:38-40 | background values of a luminance row lie in [0, 1] |
| BorderBackground.BackgroundIn | image_quality_analyzer/metrics/border_background.py:38-40 | background values of a luminance image lie in [0, 1] |
| BorderBackground.MeanBounds | image_quality_analyzer/metrics/border_background.py:42-48 | the background mean of a luminance image lies in [0, 1] |
| BorderBackground.Background | image_quality_analyzer/metrics/border_background.py:38-40 | definition: the luminance of the cells where the `uint8` value `1 - mask` is positive, so only cells holding 1 are left out; proved about in RowBackground, NoBackground and BackgroundIn |
| BorderBackground.Compute | image_quality_analyzer/metrics/border_background.py:14-65 | definition: margin ratios over the bbox, the background statistics, 0.0 each when there is no background; proved about in RatiosMatchMargins, RatiosNonNegative, MarginsMatchCompleteness, NoBackgroundStats and MeanBounds |
| Geometry.NextFields | image_quality_analyzer/metrics/geometry.py:184-190 | one pass of the loop body: both tests read `e2 = 2 * err` from before the pass |
| Geometry.FinalSteps | image_quality_analyzer/metrics/geometry.py:181-182 | the exit test holds exactly when all `dx` and `dy` steps are taken |
| Geometry.NextSteps | image_quality_analyzer/metrics/geometry.py:184-190 | a pass steps in x when `e2 > -dy` and in y when `e2 < dx` |
| Geometry.ErrorFacts | image_quality_analyzer/metrics/geometry.py:168-190 | the error term stays `j*dx - i*dy` and pins the walk on the last row, the last column and the diagonal |
| Geometry.FinalIsMajorDone | image_quality_analyzer/metrics/geometry.py:176-182 | the walk is over exactly when the major axis is done |
| Geometry.StepKeepsInv | image_quality_analyzer/metrics/geometry.py:184-190 | a pass keeps the Bresenham invariant and moves one step along the major axis |
| Geometry.States | image_quality_analyzer/metrics/geometry.py:176-190 | the loop's states: the start and the passes after it |
| Geometry.StatesStep | image_quality_analyzer/metrics/geometry.py:176-190 | each state is one pass after the one before |
| Geometry.StatesInv | image_quality_analyzer/metrics/geometry.py:176-190 | along the walk the invariant holds and the passes left count down |
| Geometry.ExitAt | image_quality_analyzer/metrics/geometry.py:176-182 | the exit test first holds after `max(dx, dy)` passes, so the loop always terminates |
| Geometry.Walk | image_quality_analyzer/metrics/geometry.py:174-190 | the visited points are the loop's positions, in order |
| Geometry.PointStep | image_quality_analyzer/metrics/geometry.py:184-190 | a pass moves at most one unit in x and in y |
| Geometry.StartInv | image_quality_analyzer/metrics/geometry.py:168-174 | the initial state satisfies the invariant |
| Geometry.Advance | image_quality_analyzer/metrics/geometry.py:184-190 | the source's updates compute the next state |
| Geometry.WalkShape | image_quality_analyzer/metrics/geometry.py:160-192 | the walk has `max(dx, dy) + 1` points, starts at (x1, y1), ends at (x2, y2), and moves at most one unit per step |
| Geometry.EdgePoints | image_quality_analyzer/metrics/geometry.py:177-179 | the kept points are the visited edge pixels, no more than the visited points |
| Geometry.EdgePointsMembers | image_quality_analyzer/metrics/geometry.py:177-179 | a point is kept exactly when it is visited, inside the frame and an edge pixel |
| Geometry.KeepOne | image_quality_analyzer/metrics/geometry.py:177-179 | one more visited point extends the kept list by what that point contributes |
| Geometry.Visit | image_quality_analyzer/metrics/geometry.py:176-182 | after a visit the kept list covers the walk so far, and the exit test holds only after the last pass |
| Geometry.ExtractLinePixels | image_quality_analyzer/metrics/geometry.py:160-192 | the Bresenham loop terminates after reaching (x2, y2) and returns exactly the edge pixels of the walk |
| Geometry.KeptAngles | image_quality_analyzer/metrics/geometry.py:73-80 | at most one angle per Hough line |
| Geometry.KeptAnglesMembers | image_quality_analyzer/metrics/geometry.py:73-80 | an angle is kept exactly when it is some line's `theta - 90` and lies in [-45, 45] |
| Geometry.SkewBounds | image_quality_analyzer/metrics/geometry.py:54-86 | the skew always lies in [-45, 45] |
| Geometry.SkewFallback | image_quality_analyzer/metrics/geometry.py:69-83 | no lines, or no line within 45 degrees of horizontal, give a skew of 0.0 |
| Geometry.DetectSkewAngle | image_quality_analyzer/metrics/geometry.py:54-86 | the loop computes exactly the median of the kept angles, with the 0.0 fallbacks |
| Geometry.NormalizeShift | image_quality_analyzer/metrics/geometry.py:112-116 | the shift is -90, 0 or +90; no shift exactly inside [-45, 45]; one shift lands [-135, 135] in [-45, 45]; a left-pointing segment is left outside |
| Geometry.LineAngles | image_quality_analyzer/metrics/geometry.py:103-120 | at most one angle per segment |
| Geometry.LineAnglesCount | image_quality_analyzer/metrics/geometry.py:103-120 | exactly one angle per non-vertical segment |
| Geometry.LineAnglesFrom | image_quality_analyzer/metrics/geometry.py:103-120 | each collected angle is the normalised angle of some non-vertical segment |
| Geometry.LineAnglesTo | image_quality_analyzer/metrics/geometry.py:103-120 | each non-vertical segment contributes its normalised angle |
| Geometry.DetectTextLineAngles | image_quality_analyzer/metrics/geometry.py:88-120 | no lines give no angles; otherwise the loop computes exactly the collected angles |
| Geometry.WarpScores | image_quality_analyzer/metrics/geometry.py:141-152 | at most one score per segment |
| Geometry.WarpFewLines | image_quality_analyzer/metrics/geometry.py:135-136 | fewer than three segments, or none, give a warp index of 0.0 |
| Geometry.ShortSegmentsSkipped | image_quality_analyzer/metrics/geometry.py:147-148 | segments with fewer than 20 edge pixels add no score |
| Geometry.WarpScoresFrom | image_quality_analyzer/metrics/geometry.py:141-152 | each score is the curvature of a segment with at least 20 edge pixels |
| Geometry.WarpBounds | image_quality_analyzer/metrics/geometry.py:122-158 | when every fit lies in [0, hi], so does the warp index |
| Geometry.WarpScoresStep | image_quality_analyzer/metrics/geometry.py:141-152 | one more segment adds its score when it has at least 20 edge pixels |
| Geometry.EstimateWarpIndex | image_quality_analyzer/metrics/geometry.py:122-158 | the loop computes exactly the mean of the long segments' curvatures, with the 0.0 fallbacks |
| Geometry.OrientationBands | image_quality_analyzer/metrics/geometry.py:226-254 | above 1.2 landscape, below 0.8 portrait, [0.8, 1.2] square; the ratio is width over height, and 0.0 (so portrait) at height 0 |
| Geometry.OrientationMatchesCompleteness | image_quality_analyzer/metrics/geometry.py:231-239 | box width, height and ratio agree with the completeness metrics |
| Geometry.OneRowIsPortrait | image_quality_analyzer/metrics/geometry.py:231-245 | a document on a single row has height 0 and is reported as portrait, however wide |
| Geometry.AspectNonNegative | image_quality_analyzer/metrics/geometry.py:233-239 | the ratio is never negative |
| Geometry.ComputeBounds | image_quality_analyzer/metrics/geometry.py:42-52 | `skew_angle_abs` is the absolute skew, in [0, 45]; the range is non-negative; `detected_lines` counts the non-vertical segments |
| Geometry.ScoredBySkew | image_quality_analyzer/scoring.py:168-181 | the scorer grades geometry by the absolute skew, lower is better |
| Geometry.GeometryVerdicts | image_quality_analyzer/metrics/geometry.py:69-70 | no Hough lines give skew 0.0, which passes for non-negative limits; a warn limit of at least 45 means geometry never fails |
| Geometry.BoxOrientationBands | image_quality_analyzer/metrics/geometry.py:236-247 | for any box, above 1.2 is landscape, below 0.8 portrait, [0.8, 1.2] square, and a zero height gives ratio 0.0 and portrait |
| Geometry.Trace | image_quality_analyzer/metrics/geometry.py:176-190 | definition: the walk's variables after `n` passes; proved about in States, StatesStep and StatesInv |
| Geometry.Keep | image_quality_analyzer/metrics/geometry.py:177-179 | definition: a visited point when it is an edge pixel, else nothing; proved about in KeepOne |
| Geometry.LinePixels | image_quality_analyzer/metrics/geometry.py:160-192 | definition: the edge pixels the walk visits along a segment; proved about in ExtractLinePixels, EdgePoints and EdgePointsMembers |
| Geometry.SkewAngle | image_quality_analyzer/metrics/geometry.py:54-86 | definition: the median of the kept Hough angles, 0.0 without lines or kept angles; proved about in SkewBounds, SkewFallback and DetectSkewAngle |
| Geometry.NormalizeAngle | image_quality_analyzer/metrics/geometry.py:112-116 | definition: an angle above 45 or below -45 degrees shifted back by 90; proved about in NormalizeShift |
| Geometry.SegmentAngle | image_quality_analyzer/metrics/geometry.py:108-118 | definition: the normalised `arctan2` angle of a segment; proved about in LineAnglesFrom and LineAnglesTo |
| Geometry.CountSloped | image_quality_analyzer/metrics/geometry.py:104-108 | definition: the number of segments that are not vertical; proved about in LineAnglesCount |
| Geometry.Curvature | image_quality_analyzer/metrics/geometry.py:194-224 | definition: 0.0 below 3 pixels or where the fit raises, else the RMS deviation of the quadratic fit; proved about in WarpScores and WarpBounds |
| Geometry.WarpIndex | image_quality_analyzer/metrics/geometry.py:122-158 | definition: 0.0 with fewer than 3 lines or no scores, else the mean of the scores; proved about in WarpFewLines, WarpBounds and EstimateWarpIndex |
| Geometry.AnalyzeOrientation | image_quality_analyzer/metrics/geometry.py:226-254 | definition: the document box's aspect ratio and orientation; proved about in OrientationBands, OrientationMatchesCompleteness and OneRowIsPortrait |
| Geometry.OrientationOfBox | image_quality_analyzer/metrics/geometry.py:236-247 | definition: the ratio and orientation band of a box's width and height; proved about in BoxOrientationBands |
| Geometry.Compute | image_quality_analyzer/metrics/geometry.py:15-52 | definition: skew, its absolute value, the line-angle statistics, warp index and orientation; proved about in ComputeBounds and GeometryVerdicts |
| Geometry.ToValue | image_quality_analyzer/metrics/geometry.py:42-52 | definition: the metrics dict; proved about in ScoredBySkew |
| FormatIntegrity.TruncToInt | image_quality_analyzer/metrics/format_integrity.py:45 | Python's `int(x)` truncates toward zero |
| FormatIntegrity.ResultReads | image_quality_analyzer/metrics/format_integrity.py:42-48 | the scorer reads back the flag and the bit depth the result reports |
| FormatIntegrity.FormatNameLowerCase | image_quality_analyzer/metrics/format_integrity.py:32 | whenever the analysis succeeds, the format name holds no upper-case ASCII letter |
| FormatIntegrity.MetadataDefaults | image_quality_analyzer/metrics/format_integrity.py:29-48 | for dict metadata without format or bit depth the analysis succeeds exactly when the allow-list supports `in`; on success, with no allow-list a format is allowed exactly when it is tiff, png or jpeg, the format defaults to "unknown" and the bit depth to 8 |
| FormatIntegrity.UpperCaseTiffAllowed | image_quality_analyzer/metrics/format_integrity.py:32-45 | with format "TIFF" and a dict config without an allow-list the analysis succeeds exactly when `int(bit_depth)` does, and then the format is allowed |
| FormatIntegrity.NoMetadataFails | image_quality_analyzer/metrics/format_integrity.py:17-59 | without metadata, or with an empty dict, the result is Ok with the format unknown and not allowed and the bit depth 8, and the scorer fails format integrity |
| FormatIntegrity.ResolutionReads | image_quality_analyzer/metrics/format_integrity.py:78-84 | the scorer reads back the two DPI values the result reports |
| FormatIntegrity.ResolutionShape | image_quality_analyzer/metrics/format_integrity.py:69-84 | on success the pixel size is the image's shape and megapixels times a million is the pixel count |
| FormatIntegrity.MissingDpiFails | image_quality_analyzer/metrics/format_integrity.py:72-80 | without metadata the result is Ok; whenever it is Ok and `dpi_x` is missing, it reads 72 and below `min_dpi_text` the scorer fails resolution |
| FormatIntegrity.AnalyzeMetadata | image_quality_analyzer/metrics/format_integrity.py:29-48 | definition: non-dict metadata raises AttributeError, then the lower-cased format name (AttributeError for a non-string), its `in` test against the allow-list (TypeError for a non-collection), `int(bit_depth)` and the two optional fields; proved about in MetadataRaises, MetadataDefaults, FormatNameLowerCase, UpperCaseTiffAllowed and BitDepthFromString |
| FormatIntegrity.Compute | image_quality_analyzer/metrics/format_integrity.py:17-27 | definition: the metadata analysis for truthy metadata, else the basic result of lines 50-59; proved about in NoMetadataFails and MetadataRaises |
| FormatIntegrity.ToValue | image_quality_analyzer/metrics/format_integrity.py:42-48 | definition: the result as the metrics dict; proved about in ResultReads |
| FormatIntegrity.ResolutionCompute | image_quality_analyzer/metrics/format_integrity.py:65-84 | definition: `float()` of each DPI, 72 when missing or without metadata, AttributeError for truthy non-dict metadata, and the pixel size; proved about in ResolutionShape, ResolutionRaises, DpiFromString and MissingDpiFails |
| FormatIntegrity.ResolutionToValue | image_quality_analyzer/metrics/format_integrity.py:78-84 | definition: the resolution result as the metrics dict; proved about in ResolutionReads |
| FormatIntegrity.MetadataRaises | image_quality_analyzer/metrics/format_integrity.py:29-45 | for truthy metadata, what raises and in which order: AttributeError when it is not a dict, AttributeError when the format is not a string, AttributeError when the config is not a dict, TypeError when the allow-list is None, a number or a bool; once the name is read the analysis fails exactly when the `in` test or `int(bit_depth)` fails |
| FormatIntegrity.BitDepthFromString | image_quality_analyzer/metrics/format_integrity.py:33-45 | a bit depth given as the string "16" is converted to 16, as `int()` does |
| FormatIntegrity.ResolutionRaises | image_quality_analyzer/metrics/format_integrity.py:72-80 | resolution raises exactly when the metadata is truthy and either is not a dict or holds a DPI that `float()` refuses; a `None` dpi_x raises TypeError |
| FormatIntegrity.DpiFromString | image_quality_analyzer/metrics/format_integrity.py:73-80 | a dpi_x given as the string "300" is converted to 300.0 and a missing dpi_y reads 72.0 |
| FormatIntegrity.PyInt | image_quality_analyzer/metrics/format_integrity.py:45 | definition: `int(v)`: truncation of a number, 0 or 1 for a bool, ParseInt of a string (ValueError when it refuses), TypeError otherwise; proved about in BitDepthFromString and MetadataRaises |
| FormatIntegrity.PyFloat | image_quality_analyzer/metrics/format_integrity.py:79-80 | definition: `float(v)`: a number as it is, 0.0 or 1.0 for a bool, ParseFloat of a string (ValueError when it refuses), TypeError otherwise; proved about in DpiFromString and ResolutionRaises |
| FormatIntegrity.ParseInt | image_quality_analyzer/metrics/format_integrity.py:45 | definition: `int()` of a string: surrounding whitespace, an optional sign, digits with single underscores between them; proved about in IntTextRoundTrip, IntIsFloat, SixteenParses and PointRefusedByInt |
| FormatIntegrity.ParseFloat | image_quality_analyzer/metrics/format_integrity.py:79-80 | definition: `float()` of a string: surrounding whitespace, an optional sign, digits around an optional point, an optional signed exponent; proved about in IntIsFloat and ThreeHundredParses |
| FormatIntegrity.IntTextRoundTrip | image_quality_analyzer/metrics/format_integrity.py:45 | `int(str(n)) == n` for every integer n, negative ones included |
| FormatIntegrity.IntIsFloat | image_quality_analyzer/metrics/format_integrity.py:45-80 | every string `int()` accepts `float()` accepts too, with the same value |
| FormatIntegrity.NatStringRun | image_quality_analyzer/metrics/format_integrity.py:45 | the decimal text of a natural number is a digit run spelling that number |
| FormatIntegrity.SixteenParses | image_quality_analyzer/metrics/format_integrity.py:45 | `int("16") == 16` |
| FormatIntegrity.ThreeHundredParses | image_quality_analyzer/metrics/format_integrity.py:79 | `float("300") == 300.0` |
| FormatIntegrity.PointRefusedByInt | image_quality_analyzer/metrics/format_integrity.py:45 | `int("1.5")` raises ValueError: a point is not part of an integer literal |
| FormatIntegrity.FormatName | image_quality_analyzer/metrics/format_integrity.py:32 | definition: `metadata.get('format', 'unknown').lower()`, AttributeError for a non-string; proved about in FormatNameLowerCase and MetadataRaises |
| FormatIntegrity.FormatAllowed | image_quality_analyzer/metrics/format_integrity.py:36-37 | definition: AttributeError for a config that is not a dict, then `in` against the allow-list: list membership, substring of a string, key of a dict, TypeError otherwise; proved about in MetadataDefaults and MetadataRaises |
| Exposure.RowDocPixels | image_quality_analyzer/metrics/exposure.py:31-32 | a row gives at most one document pixel per cell |
| Exposure.RowDocPixelsEmpty | image_quality_analyzer/metrics/exposure.py:31-32 | a row gives no document pixel exactly when none of its mask cells is positive |
| Exposure.DocPixelsEmpty | image_quality_analyzer/metrics/exposure.py:31-35 | there are no document pixels exactly when no mask cell is positive |
| Exposure.CountAtMost | image_quality_analyzer/metrics/exposure.py:100 | the shadow count is at most the pixel count |
| Exposure.CountAtLeast | image_quality_analyzer/metrics/exposure.py:101 | the highlight count is at most the pixel count |
| Exposure.ClippingBounds | image_quality_analyzer/metrics/exposure.py:87-112 | the total is the pixel count, both clipped counts are at most the total, and both percentages lie in [0, 100] |
| Exposure.CountsDisjoint | image_quality_analyzer/metrics/exposure.py:100-101 | values at most one threshold and at least a higher one are disjoint |
| Exposure.ClippingSumBounded | image_quality_analyzer/metrics/exposure.py:87-104 | with the thresholds `compute` uses (0 and 1) the two percentages add up to at most 100 |
| Exposure.PositiveTileHasPixels | image_quality_analyzer/metrics/exposure.py:132-137 | a tile whose mask sums to more than 0 holds at least one document pixel |
| Exposure.EmptyTileCellIsZero | image_quality_analyzer/metrics/exposure.py:253-255 | a map cell whose tile holds no mask pixel stays 0 |
| Exposure.IllumCellBounds | image_quality_analyzer/metrics/exposure.py:253-255 | with luminance in [0, 1] every map cell lies in [0, 1] |
| Exposure.RowValidIn | image_quality_analyzer/metrics/exposure.py:135 | the document pixels of a tile row lie in [0, 1] |
| Exposure.CellsValidIn | image_quality_analyzer/metrics/exposure.py:135 | the document pixels of a tile lie in [0, 1] |
| Exposure.CreateIlluminationMap | image_quality_analyzer/metrics/exposure.py:229-257 | the map is `(h // t + 1) x (w // t + 1)`, each cell the mean document luminance of its tile, or 0 when the tile holds no mask pixel |
| Exposure.LocalMeans | image_quality_analyzer/metrics/exposure.py:127-137 | at most one local mean per tile |
| Exposure.AnalyzeIlluminationUniformity | image_quality_analyzer/metrics/exposure.py:114-163 | the loop over the tile grid computes exactly the uniformity statistics |
| Exposure.LocalMeansFrom | image_quality_analyzer/metrics/exposure.py:127-137 | every local mean comes from a tile holding at least a tenth of a tile's mask weight and a document pixel |
| Exposure.LocalMeansIn | image_quality_analyzer/metrics/exposure.py:127-137 | each local mean of a luminance image lies in [0, 1] |
| Exposure.UniformityFacts | image_quality_analyzer/metrics/exposure.py:139-163 | with analysed tiles the coefficient of variation is the ratio times 100, at most `ceil(h/t) * ceil(w/t)` tiles are analysed, the local mean is in [0, 1], and a non-negative deviation gives a non-negative ratio |
| Exposure.SparseTilesSkipped | image_quality_analyzer/metrics/exposure.py:131-145 | no tile with a tenth of a tile's mask weight means no local mean, so the ratio reads 1.0 |
| Exposure.PercentileValues | image_quality_analyzer/metrics/exposure.py:174 | one numpy percentile per requested percentile |
| Exposure.BrightnessOrder | image_quality_analyzer/metrics/exposure.py:165-175 | mean, median and every requested percentile lie between the minimum and the maximum |
| Exposure.DynamicRangeBounds | image_quality_analyzer/metrics/exposure.py:177-199 | 0 ≤ effective range ≤ full range, utilization equals effective range, and min ≤ p5 ≤ p95 ≤ max |
| Exposure.BackgroundOrder | image_quality_analyzer/metrics/exposure.py:201-227 | no background exactly when the wrapped `1 - doc_mask` selects no pixel (the border metric's background); otherwise median and mean never exceed the maximum |
| Exposure.EmptyExactlyWithoutDocument | image_quality_analyzer/metrics/exposure.py:31-35 | the result is `_empty_result` exactly when no mask cell is positive |
| Exposure.ClippingReads | image_quality_analyzer/metrics/exposure.py:106-112 | the scorer reads back the two clipping percentages |
| Exposure.EmptyClippingReads | image_quality_analyzer/metrics/exposure.py:63-66 | the empty result's clipping reads 0.0 and 0.0 |
| Exposure.UniformityReads | image_quality_analyzer/metrics/exposure.py:139-163 | the scorer reads back the reported uniformity ratio, 1.0 without analysed tiles |
| Exposure.ResultReads | image_quality_analyzer/metrics/exposure.py:52-85 | what the scorer reads from the dict: the clipping percentages and the ratio, or 0, 0 and 1.0 for the empty result |
| Exposure.EmptyResultFails | image_quality_analyzer/metrics/exposure.py:60-85 | an image without a document pixel fails exposure whenever the uniformity fail limit is below 1 (0.25 by default) |
| Exposure.NoTilesFails | image_quality_analyzer/metrics/exposure.py:131-145 | a document with no sufficiently covered tile reports ratio 1.0 and fails under the same condition |
| Exposure.ClippingScore | image_quality_analyzer/metrics/exposure.py:37-38 | the percentages are non-negative and add up to at most 100, and the scorer fails exposure when either is above its limit |
| Exposure.DocPixels | image_quality_analyzer/metrics/exposure.py:30-32 | definition: `(luminance * doc_mask)[doc_mask > 0]` in row-major order; proved about in RowDocPixels, DocPixelsEmpty and EmptyExactlyWithoutDocument |
| Exposure.AnalyzeClipping | image_quality_analyzer/metrics/exposure.py:87-112 | definition: the shadow and highlight clip counts and percentages against the two thresholds; proved about in ClippingBounds, CountsDisjoint and ClippingSumBounded |
| Exposure.MapTile | image_quality_analyzer/metrics/exposure.py:246-249 | definition: the tile of map cell `(i, j)`, clipped to the frame; used by CreateIlluminationMap |
| Exposure.IllumCell | image_quality_analyzer/metrics/exposure.py:251-255 | definition: the mean document luminance of the map cell's tile, or 0.0; proved about in EmptyTileCellIsZero, IllumCellBounds and CreateIlluminationMap |
| Exposure.TileMean | image_quality_analyzer/metrics/exposure.py:127-137 | definition: a tile's mean document luminance, none for a tile whose mask sums below a tenth of a full tile or holds no document pixel; proved about in PositiveTileHasPixels and SparseTilesSkipped |
| Exposure.UniformityOf | image_quality_analyzer/metrics/exposure.py:139-163 | definition: the no-tiles defaults, or the ratio, spread, mean and coefficient of variation of the local means; proved about in UniformityFacts |
| Exposure.IlluminationUniformity | image_quality_analyzer/metrics/exposure.py:114-163 | definition: the uniformity statistics over the local means of the 64-pixel tile grid; proved about in AnalyzeIlluminationUniformity, LocalMeans and NoTilesFails |
| Exposure.BrightnessOf | image_quality_analyzer/metrics/exposure.py:165-175 | definition: mean, median, spread and the 5th and 95th percentiles of the document pixels; proved about in BrightnessOrder and PercentileValues |
| Exposure.DynamicRangeOf | image_quality_analyzer/metrics/exposure.py:177-199 | definition: the range between the 1st and 99th percentiles and its share of the full range; proved about in DynamicRangeBounds |
| Exposure.BackgroundOf | image_quality_analyzer/metrics/exposure.py:201-227 | definition: the statistics of the pixels where the wrapped `1 - doc_mask` is positive, zeros without any; proved about in BackgroundOrder |
| Exposure.Compute | image_quality_analyzer/metrics/exposure.py:15-58 | definition: the empty result without document pixels, else the five analyses; proved about in EmptyExactlyWithoutDocument and EmptyResultFails |
| Exposure.ToValue | image_quality_analyzer/metrics/exposure.py:52-85 | definition: the metrics dict, `_empty_result` or the five sections; proved about in ResultReads |
| DocumentShadow.SafeDivide | image_quality_analyzer/metrics/document_shadow.py:50-54 | 0.0 for a zero divisor, otherwise the quotient |
| DocumentShadow.Rays | image_quality_analyzer/metrics/document_shadow.py:307-331 | one sample run per direction, in the source's order of the eight directions |
| DocumentShadow.RayFromSamples | image_quality_analyzer/metrics/document_shadow.py:315-325 | step `i` of a run is the in-frame pixel at distance `2 i` along the direction |
| DocumentShadow.RayFromLength | image_quality_analyzer/metrics/document_shadow.py:315 | a run holds at most `num_samples` samples |
| DocumentShadow.BestIsFirstLongest | image_quality_analyzer/metrics/document_shadow.py:329-331 | the best run is at least as long as every run and is the first of the longest |
| DocumentShadow.PerpendicularSamplesFacts | image_quality_analyzer/metrics/document_shadow.py:289-333 | the result is empty or holds 5 to `num_samples` samples, and is then the first longest direction's run |
| DocumentShadow.RayStep | image_quality_analyzer/metrics/document_shadow.py:316-327 | one step of a run: stop outside the frame, stop on a document pixel after step 2, else take the sample |
| DocumentShadow.BestStep | image_quality_analyzer/metrics/document_shadow.py:329-331 | a run replaces the best only when strictly longer |
| DocumentShadow.SampleDirection | image_quality_analyzer/metrics/document_shadow.py:313-327 | the inner loop with its `break`s computes exactly one direction's run |
| DocumentShadow.SamplePerpendicularGradient | image_quality_analyzer/metrics/document_shadow.py:289-333 | the loop over the directions computes exactly the sampled profile |
| DocumentShadow.FirstStable | image_quality_analyzer/metrics/document_shadow.py:354-356 | the first stable step from `i` on, or the length when none is |
| DocumentShadow.FirstStableIsFirst | image_quality_analyzer/metrics/document_shadow.py:354-356 | the returned step is stable (size below 2) and no earlier one is |
| DocumentShadow.ShadowWidthFacts | image_quality_analyzer/metrics/document_shadow.py:335-358 | the width is even and in [0, 2n]; 0 below 3 samples; otherwise twice the first stable index, and exactly 2n when no step is stable |
| DocumentShadow.CalculateShadowWidth | image_quality_analyzer/metrics/document_shadow.py:335-358 | the loop with its early return computes exactly the (corrected) width |
| DocumentShadow.DecreasingRunDiffers | image_quality_analyzer/metrics/document_shadow.py:349-356 | on uint8 samples 200, 199, 198 the wrapped steps read 255 and never stabilise (width 6), where the intended width is 0 |
| DocumentShadow.ConfidenceFactors | image_quality_analyzer/metrics/document_shadow.py:378-394 | two or three confidence factors: intensity, smoothness when the variance is positive, and width |
| DocumentShadow.SumAtMostOne | image_quality_analyzer/metrics/document_shadow.py:396 | factors of at most 1 sum to at most their count |
| DocumentShadow.ClassificationFacts | image_quality_analyzer/metrics/document_shadow.py:360-414 | shadow present exactly when the intensity difference exceeds the threshold; quality 1.0 without shadow, `max(0, 1 - diff/100)` with one; width confidence 1.0 exactly in [5, 100], else 0.5; confidences at most 1 |
| DocumentShadow.FlatGradientReportsWidth | image_quality_analyzer/metrics/document_shadow.py:385-411 | without a positive variance the reported smoothness detail is the width confidence, the second factor |
| DocumentShadow.ErrorResult | image_quality_analyzer/metrics/document_shadow.py:432-449 | no shadow, neutral quality 0.5 and the message |
| DocumentShadow.ShadowRecommendations | image_quality_analyzer/metrics/document_shadow.py:487-501 | one to four lines, led by the strong, moderate or minor shadow line chosen by the intensity |
| DocumentShadow.RecommendationShapes | image_quality_analyzer/metrics/document_shadow.py:466-512 | an error gives only the error line; otherwise the two general lines close the list, 3 lines without a shadow and at most 6 with one |
| DocumentShadow.ScoreOfResult | image_quality_analyzer/metrics/document_shadow.py:451-464 | the result dict has an `error` key exactly for error results, which score 0.5; others score their quality |
| DocumentShadow.OverrideGet | image_quality_analyzer/metrics/document_shadow.py:105-108 | after the override each config key's value is the attribute, every other attribute keeps its value |
| DocumentShadow.ShadowMetric.constructor | image_quality_analyzer/metrics/document_shadow.py:81-91 | the attributes are read from `config or {}` with their defaults |
| DocumentShadow.ShadowMetric.ApplyConfig | image_quality_analyzer/metrics/document_shadow.py:105-108 | a truthy config's items become attributes, in order |
| DocumentShadow.ShadowMetric.Analyze | image_quality_analyzer/metrics/document_shadow.py:93-169 | the override persists on the object, and the result is the outcome under the threshold then in force |
| DocumentShadow.OverridePersists | image_quality_analyzer/metrics/document_shadow.py:105-108 | a `shadow_threshold` set by one call is the one later calls classify with |
| DocumentShadow.AnalyzeOutcomes | image_quality_analyzer/metrics/document_shadow.py:93-169 | a measured image with a non-zero threshold has no error, shadow present iff diff > threshold and the classification's score; otherwise an error result scored 0.5 with one recommendation |
| DocumentShadow.RayFrom | image_quality_analyzer/metrics/document_shadow.py:315-327 | definition: the samples of one direction from step `i` on, stopping at the first pixel out of the frame or, past the third step, inside the document; proved about in RayFromSamples, RayFromLength and RayStep |
| DocumentShadow.Ray | image_quality_analyzer/metrics/document_shadow.py:313-327 | definition: the samples of one direction over `num_samples` steps; proved about in SampleDirection |
| DocumentShadow.Best | image_quality_analyzer/metrics/document_shadow.py:329-331 | definition: the kept run, replaced only by a strictly longer one; proved about in BestIsFirstLongest and BestStep |
| DocumentShadow.PerpendicularSamples | image_quality_analyzer/metrics/document_shadow.py:289-333 | definition: the best run when it holds at least 5 samples, else none; proved about in PerpendicularSamplesFacts and SamplePerpendicularGradient |
| DocumentShadow.ShadowWidth | image_quality_analyzer/metrics/document_shadow.py:335-358 | definition: 0 below 3 samples, twice the first stable index, else twice the length; proved about in ShadowWidthFacts and CalculateShadowWidth |
| DocumentShadow.FirstStableUint8 | image_quality_analyzer/metrics/document_shadow.py:349-356 | definition: the first stable step as `np.diff` finds it on `uint8` samples, where a wrapped step below 2 is only 0 or +1; proved about in DecreasingRunDiffers |
| DocumentShadow.ShadowWidthUint8 | image_quality_analyzer/metrics/document_shadow.py:335-358 | definition: the width as written on 8-bit samples; proved about in DecreasingRunDiffers |
| DocumentShadow.ClassifyShadow | image_quality_analyzer/metrics/document_shadow.py:360-414 | definition: presence, confidence and quality score from the shadow metrics, an error for a zero threshold; proved about in ClassificationFacts, ConfidenceFactors and FlatGradientReportsWidth |
| DocumentShadow.AnalyzeOutcome | image_quality_analyzer/metrics/document_shadow.py:117-169 | definition: the error result for a missing contour or a failed classification, else the result dict; proved about in AnalyzeOutcomes |
| DocumentShadow.ToValue | image_quality_analyzer/metrics/document_shadow.py:136-164 | definition: the top-level entries of the result dict; proved about in ScoreOfResult |
| DocumentShadow.GetScore | image_quality_analyzer/metrics/document_shadow.py:451-464 | definition: 0.5 for an error result, else `quality_score` with 0.5 when missing; proved about in ScoreOfResult |
| DocumentShadow.GetRecommendations | image_quality_analyzer/metrics/document_shadow.py:466-512 | definition: the error line, or the lines the presence, width and intensity call for; proved about in ShadowRecommendations and RecommendationShapes |
| DocumentShadow.InitialAttributes | image_quality_analyzer/metrics/document_shadow.py:81-91 | definition: the attributes `__init__` reads from `config or {}`; stated by ShadowMetric.constructor |
| DocumentShadow.Override | image_quality_analyzer/metrics/document_shadow.py:105-108 | definition: the attributes after `setattr` of each item in order; proved about in OverrideGet and OverridePersists |
| DocumentShadow.ShadowMetric.ShadowThreshold | image_quality_analyzer/metrics/document_shadow.py:86 | definition: the `shadow_threshold` attribute read as a number; used by Analyze |
| Analyzer.AfterLastSlash | image_quality_analyzer/analyzer.py:80 | the index is just past the last `/`, and nothing after it is a `/` |
| Analyzer.Basename | image_quality_analyzer/analyzer.py:137 | the base name holds no `/` and is a suffix of the path |
| Analyzer.RStripSlashes | image_quality_analyzer/analyzer.py:222 | the stripped path is a prefix, empty exactly for an all-slash input, and ends in no `/` |
| Analyzer.DirnameEmpty | image_quality_analyzer/analyzer.py:222 | a path has no directory part exactly when it holds no `/` |
| Analyzer.LastDot | image_quality_analyzer/analyzer.py:80 | the last `.` of the name, and none exactly when the name holds no dot |
| Analyzer.DefaultImageIdFacts | image_quality_analyzer/analyzer.py:79-80 | the default id is the base name up to its last dot, a leading dot being kept; a name without a dot is kept whole |
| Analyzer.ImageIdDropsExtension | image_quality_analyzer/analyzer.py:80 | `s/p.tif` gets the id `p` |
| Analyzer.ImageIdKeepsInnerDots | image_quality_analyzer/analyzer.py:80 | only the last extension is dropped |
| Analyzer.ImageIdHiddenFile | image_quality_analyzer/analyzer.py:80 | a name whose only dot leads it keeps it |
| Analyzer.ExtractMetadata | image_quality_analyzer/analyzer.py:225-277 | the loop over the EXIF entries computes exactly the metadata, or the fallback on any exception |
| Analyzer.ExifKeepsKeys | image_quality_analyzer/analyzer.py:247-255 | the EXIF loop removes none of the base keys |
| Analyzer.FallbackReads | image_quality_analyzer/analyzer.py:272-277 | the fallback has format `unknown`, 72 DPI both ways and bit depth 8 |
| Analyzer.MetadataKeys | image_quality_analyzer/analyzer.py:225-277 | the metadata always holds a format, both DPIs and a bit depth |
| Analyzer.FallbackCases | image_quality_analyzer/analyzer.py:229-277 | an unopenable image, or an EXIF bit depth that cannot be indexed, gives the fallback |
| Analyzer.PlainImageDefaults | image_quality_analyzer/analyzer.py:238-266 | an image without DPI info or EXIF reports 72 DPI and bit depth 8, whatever the mode |
| Analyzer.CategoryOrderFacts | image_quality_analyzer/analyzer.py:40-52 | eleven distinct computers, and none for `document_shadow` |
| Analyzer.AllMetrics | image_quality_analyzer/analyzer.py:286-302 | one metrics entry per computer |
| Analyzer.AllMetricsFacts | image_quality_analyzer/analyzer.py:290-302 | the `i`-th entry is the `i`-th computer's result, or `{}` if it raised, whatever the others did |
| Analyzer.FailedComputerGivesEmpty | image_quality_analyzer/analyzer.py:298-300 | a computer that raises leaves `{}` under its own category |
| Analyzer.AnalysisFacts | image_quality_analyzer/analyzer.py:57-108 | an unreadable image raises the load error; otherwise the report has the path, the given or default id, the image's size, the metadata's DPI (72 by default), every computer's category, the scorer's statuses, and stars 1 with status fail on a critical failure |
| Analyzer.DefaultInitialConfig | image_quality_analyzer/analyzer.py:36-37 | without a configuration the default one is used and passes validation |
| Analyzer.ImageQualityAnalyzer.constructor | image_quality_analyzer/analyzer.py:29-55 | the object keeps the configuration, builds its scorer from it and registers the eleven computers |
| Analyzer.ImageQualityAnalyzer.ComputeAllMetrics | image_quality_analyzer/analyzer.py:286-302 | the loop over the computers computes exactly the metrics dict |
| Analyzer.ImageQualityAnalyzer.AnalyzeImage | image_quality_analyzer/analyzer.py:57-108 | the method computes exactly the analysis of the path under the object's state |
| Analyzer.ImageQualityAnalyzer.AnalyzeNext | image_quality_analyzer/analyzer.py:126-141 | one iteration extends the entries and the callback calls of the first i paths to exactly those of the first i + 1 |
| Analyzer.ImageQualityAnalyzer.AnalyzeBatch | image_quality_analyzer/analyzer.py:110-143 | the loop computes exactly the batch's entries and the callback's calls |
| Analyzer.ImageQualityAnalyzer.UpdateConfig | image_quality_analyzer/analyzer.py:304-309 | a valid configuration replaces the old one and rebuilds the scorer; an invalid one raises and changes nothing; validity is kept |
| Analyzer.NewAnalyzer | image_quality_analyzer/analyzer.py:29-55 | construction succeeds exactly when `config or load_default_config()` passes validation, and otherwise raises the validation error |
| Analyzer.MapPaths | image_quality_analyzer/analyzer.py:125-127 | a per-path function applied to a batch gives one result per path (also the per-path records of custom_focus_detection.py:396-439) |
| Analyzer.MapPathsAt | image_quality_analyzer/analyzer.py:127 | the `i`-th result is the function applied to the `i`-th path |
| Analyzer.RecordOutcome | image_quality_analyzer/analyzer.py:128-141 | a success appends its report and calls the callback; a failure, or a callback that raises, appends an error record |
| Analyzer.BatchStep | image_quality_analyzer/analyzer.py:125-141 | the results and calls after one more path extend those before |
| Analyzer.EntryForFacts | image_quality_analyzer/analyzer.py:127-141 | a path's entry has that path; it is an error record exactly when the image cannot load, with the base name as id and the load message |
| Analyzer.BatchOnePerPath | image_quality_analyzer/analyzer.py:123-143 | unless the callback raises, one entry per path, in order: its report or its error record |
| Analyzer.QuietBatch | image_quality_analyzer/analyzer.py:123-143 | unless the callback raises, the batch is the path-by-path list of entries |
| Analyzer.RaisingCallbackAddsEntry | image_quality_analyzer/analyzer.py:128-141 | a callback that raises after a success adds an error record after the report |
| Analyzer.CallsFacts | image_quality_analyzer/analyzer.py:130-131 | the callback fires only after successes, once each, in order, with the position from 1, the batch size and the path; never without a callback |
| Analyzer.CallsWithoutCallback | image_quality_analyzer/analyzer.py:130-131 | without a callback there are no calls |
| Analyzer.CallsCount | image_quality_analyzer/analyzer.py:130-131 | with a callback there is one call per successful image |
| Analyzer.CallsInOrder | image_quality_analyzer/analyzer.py:130-131 | each call carries a successful path and its position, and positions increase |
| Analyzer.StatusFields | image_quality_analyzer/analyzer.py:104 | one status entry per scored category |
| Analyzer.ErrorKeyMarksFailure | image_quality_analyzer/analyzer.py:136-141 | a result holds an `error` key exactly when it is an error record |
| Analyzer.ErrorRecordFacts | image_quality_analyzer/analyzer.py:136-141 | an error record has status `error`, score 0.0, 0 stars and the base name as id |
| Analyzer.CsvRow | image_quality_analyzer/analyzer.py:192-216 | one value per CSV column |
| Analyzer.EntryValues | image_quality_analyzer/analyzer.py:185 | one dict per entry |
| Analyzer.Reports | image_quality_analyzer/analyzer.py:186-187 | only reports are kept |
| Analyzer.CsvSkipsErrors | image_quality_analyzer/analyzer.py:183-218 | one CSV row per report, in order, and none for an error record |
| Analyzer.CsvRowIdentity | image_quality_analyzer/analyzer.py:193-194 | a report's row starts with its id and its path |
| Analyzer.ExportCsv | image_quality_analyzer/analyzer.py:220-223 | the guarded export creates the path's directory only when it has one and writes the filtered rows |
| Analyzer.ExportBareFileName | image_quality_analyzer/analyzer.py:222 | as written the export fails exactly for a path without `/`, and otherwise writes the guarded export's rows |
| Analyzer.ComparisonCsvFails | image_quality_analyzer/analyzer.py:222 | exporting to `comparison.csv` raises as written; the guarded export writes its rows |
| Analyzer.Dirname | image_quality_analyzer/analyzer.py:222 | definition: `os.path.dirname` on POSIX paths, the part before the last `/` with trailing slashes dropped unless it is all slashes; proved about in DirnameEmpty |
| Analyzer.StripExtension | image_quality_analyzer/analyzer.py:80 | definition: `os.path.splitext(...)[0]`, dropping from the last dot unless only dots precede it; proved about in DefaultImageIdFacts |
| Analyzer.DefaultImageId | image_quality_analyzer/analyzer.py:79-80 | definition: the base name without its extension; proved about in DefaultImageIdFacts, ImageIdDropsExtension, ImageIdKeepsInnerDots and ImageIdHiddenFile |
| Analyzer.BaseFields | image_quality_analyzer/analyzer.py:231-240 | definition: the lower-cased format (else `unknown`), mode, size and the `dpi` info (default 72, 72); proved about in MetadataKeys and PlainImageDefaults |
| Analyzer.BitsValue | image_quality_analyzer/analyzer.py:255 | definition: an int is kept, any other value is indexed at 0, and the cases where indexing raises give none; proved about in FallbackCases |
| Analyzer.ExifStep | image_quality_analyzer/analyzer.py:248-255 | definition: one EXIF tag: XResolution and YResolution set the DPI, BitsPerSample the bit depth; proved about in ExifKeepsKeys |
| Analyzer.ExifApply | image_quality_analyzer/analyzer.py:247-255 | definition: the EXIF entries in order, raising once one raises; proved about in ExifKeepsKeys and ExtractMetadata |
| Analyzer.MetadataOf | image_quality_analyzer/analyzer.py:225-277 | definition: the metadata of an image PIL opens, with bit depth 8 when no tag gave one, or the fallback on any exception; proved about in MetadataKeys, FallbackReads and PlainImageDefaults |
| Analyzer.CategoryMetrics | image_quality_analyzer/analyzer.py:293-300 | definition: one computer's result under `config.get(category, {})`, or `{}` when it raised; proved about in AllMetricsFacts and FailedComputerGivesEmpty |
| Analyzer.Analysis | image_quality_analyzer/analyzer.py:57-108 | definition: `analyze_image`: the load error for an unreadable image, otherwise the report; proved about in AnalysisFacts |
| Analyzer.BuildReport | image_quality_analyzer/analyzer.py:76-106 | definition: the report dict of an image that loaded, from its metadata, id, metrics and scores; proved about in AnalysisFacts |
| Analyzer.InitialConfig | image_quality_analyzer/analyzer.py:36 | definition: `config or load_default_config()`; proved about in DefaultInitialConfig and NewAnalyzer |
| Analyzer.ErrorEntry | image_quality_analyzer/analyzer.py:136-141 | definition: the error record of a path: its base name as id, the path, the message and the error global; proved about in ErrorRecordFacts |
| Analyzer.PathEntries | image_quality_analyzer/analyzer.py:126-141 | definition: what one path adds: its error record, or its report and, when the callback raises, an error record after it; proved about in RecordOutcome and RaisingCallbackAddsEntry |
| Analyzer.Batch | image_quality_analyzer/analyzer.py:123-143 | definition: the results after the first `k` paths; proved about in BatchStep, BatchOnePerPath and QuietBatch |
| Analyzer.Calls | image_quality_analyzer/analyzer.py:130-131 | definition: the callback's calls after the first `k` paths; proved about in CallsFacts, CallsCount and CallsInOrder |
| Analyzer.EntryFor | image_quality_analyzer/analyzer.py:126-141 | definition: a path's report, or its error record; proved about in EntryForFacts |
| Analyzer.EntryToValue | image_quality_analyzer/analyzer.py:92-106 | definition: the dict of a report or an error record; proved about in ErrorKeyMarksFailure |
| Analyzer.Dig | image_quality_analyzer/analyzer.py:193-215 | definition: the nested `.get(k, {})` lookups with the row's defaults; proved about in CsvRowIdentity |
| Analyzer.CsvRows | image_quality_analyzer/analyzer.py:183-218 | definition: the rows of the results with no `error` key, in order; proved about in CsvSkipsErrors |
| Analyzer.ExportCsvAsWritten | image_quality_analyzer/analyzer.py:174-223 | definition: the export as written, raising for a path without a directory; proved about in ExportBareFileName and ComparisonCsvFails |
| Analyzer.Entries | image_quality_analyzer/analyzer.py:125-141 | the reference list of one entry per path for the first `k` paths, of length `k`, against which QuietBatch states the loop |
| Analyzer.EntriesAt | image_quality_analyzer/analyzer.py:125-141 | the `i`-th reference entry is the `i`-th path's report or error record |
| Analyzer.QuietPathEntry | image_quality_analyzer/analyzer.py:126-141 | under a callback that does not raise, each path adds exactly its own entry |
| CustomFocus.LaplacianPoints | custom_focus_detection.py:163-169 | at most 3 points; 3 exactly at or above `min_laplacian_variance`; 0 exactly below all three Laplacian thresholds |
| CustomFocus.CriteriaScore | custom_focus_detection.py:160-177 | the criteria score is at most 5 |
| CustomFocus.LevelFor | custom_focus_detection.py:179-189 | the level's rank is the criteria score capped at 4 |
| CustomFocus.ClassifyFocusLevel | custom_focus_detection.py:154-189 | the level is the one the criteria score earns, and the local mean plays no part |
| CustomFocus.LevelBands | custom_focus_detection.py:179-189 | excellent iff score ≥ 4, good iff 3, acceptable iff 2, poor iff 1, unusable iff 0 |
| CustomFocus.OutOfFocusBand | custom_focus_detection.py:179-189 | poor or unusable exactly when the criteria score is at most 1 |
| CustomFocus.UnusableMeansAllMiss | custom_focus_detection.py:163-189 | unusable exactly when every criterion misses |
| CustomFocus.ScoreMono | custom_focus_detection.py:160-177 | raising any input never lowers the criteria score |
| CustomFocus.LevelMono | custom_focus_detection.py:154-189 | raising the Laplacian variance, edge density or high-frequency energy never lowers the level |
| CustomFocus.ExcellentBelowMinimum | custom_focus_detection.py:41-61 | under the default thresholds a Laplacian of 150 with edges and high frequencies is excellent, and 350 without them only good: the classification minima play no part |
| CustomFocus.OtherIssuesDiffer | custom_focus_detection.py:206-220 | no edge, variation or gradient issue reads like a Laplacian issue |
| CustomFocus.IssueFacts | custom_focus_detection.py:191-222 | at most four issues; a Laplacian issue appears exactly below one of its thresholds, and only first; the severe one exactly below `critical_fail_laplacian` |
| CustomFocus.ConfidenceFactors | custom_focus_detection.py:229-253 | three confidence factors |
| CustomFocus.ConfidenceRange | custom_focus_detection.py:224-255 | the confidence lies in [0.7, 0.9] |
| CustomFocus.IssueRecommendations | custom_focus_detection.py:277-285 | at most one line per issue |
| CustomFocus.IssueLines | custom_focus_detection.py:277-285 | the loop over the issues computes exactly the issue lines |
| CustomFocus.GenerateFocusRecommendations | custom_focus_detection.py:257-291 | the method computes exactly the level lines, issue lines and confidence line |
| CustomFocus.RecommendationsLead | custom_focus_detection.py:266-274 | out of focus leads with the CRITICAL line and three retake hints; acceptable with the WARNING and fine-tune lines; better levels get only the issue and confidence lines |
| CustomFocus.NoLowConfidenceLine | custom_focus_detection.py:288-289 | the detector's own confidence never triggers the low-confidence line |
| CustomFocus.UniformBlurGetsShutterLine | custom_focus_detection.py:277-281 | the uniform-blur issue gets the shutter line, since the motion-blur test comes first |
| CustomFocus.Index | custom_focus_detection.py:110 | `d[k]` succeeds exactly when the key is present |
| CustomFocus.DetailsFacts | custom_focus_detection.py:106-152 | the focus score is the Laplacian variance, the level follows the criteria score, the confidence is in [0.7, 0.9], at most four issues |
| CustomFocus.MissingSharpnessIsUnusable | custom_focus_detection.py:110-123 | a report without sharpness numbers reads zeros: unusable, score 0, severe blur first |
| CustomFocus.AnalyzeFocusQuality | custom_focus_detection.py:78-104 | the analyzer's report, or what it raised, then the focus details and recommendations |
| CustomFocus.Bump | custom_focus_detection.py:410 | one level's counter rises by one and no other changes |
| CustomFocus.SummaryCount | custom_focus_detection.py:413-423 | no more summaries than records |
| CustomFocus.DistCounts | custom_focus_detection.py:388-410 | each counter counts its level's records, and the counters add up to the successes |
| CustomFocus.BatchSummaryFacts | custom_focus_detection.py:442-448 | out of focus is poor plus unusable; the usable count includes every failed analysis and lies in [0, n] |
| CustomFocus.AllErrorsAreUsable | custom_focus_detection.py:433-447 | a batch in which every analysis raised counts every image usable and none out of focus |
| CustomFocus.RecordReport | custom_focus_detection.py:404-423 | the record of a report: its level, score, global score and status, issues and recommendations, or the error of a missing key |
| CustomFocus.AnalyzePath | custom_focus_detection.py:399-439 | one iteration computes exactly the path's record |
| CustomFocus.BatchAnalyzeFocus | custom_focus_detection.py:371-487 | an empty path list raises ZeroDivisionError when the summary printout divides by the total (lines 453, 486-487), and only an empty list raises; otherwise the loop computes one record per path, in order, and the summary of the level counters |
| CustomFocus.LevelName | custom_focus_detection.py:179-189 | definition: the level names the classifier returns (`excellent` … `unusable`); used wherever a level is reported |
| CustomFocus.Rank | custom_focus_detection.py:179-189 | definition: the order unusable < poor < acceptable < good < excellent of the classifier's bands; proved about in LevelMono |
| CustomFocus.OutOfFocus | custom_focus_detection.py:266 | definition: the levels `poor` and `unusable`, which the recommendations and the batch summary treat as out of focus; proved about in OutOfFocusBand and BatchSummaryFacts |
| CustomFocus.FocusLevelOf | custom_focus_detection.py:126-128 | definition: the level `_classify_focus_level` assigns to the four inputs `_analyze_focus_details` passes; proved about in ClassifyFocusLevel, LevelBands and LevelMono |
| CustomFocus.LaplacianIssues | custom_focus_detection.py:198-204 | definition: the one Laplacian-variance issue of the first limit undercut, or none; proved about in IssueFacts |
| CustomFocus.EdgeIssues | custom_focus_detection.py:206-210 | definition: the edge-content issue for a density below half the minimum or below the minimum; proved about in IssueFacts |
| CustomFocus.VariationIssues | custom_focus_detection.py:212-216 | definition: the local-variation issue above 5000 or below 100; proved about in IssueFacts |
| CustomFocus.GradientIssues | custom_focus_detection.py:218-220 | definition: the weak-gradient issue below 5.0; proved about in IssueFacts |
| CustomFocus.FocusIssues | custom_focus_detection.py:191-222 | definition: the four groups of issues in source order; proved about in IssueFacts and OtherIssuesDiffer |
| CustomFocus.Confidence | custom_focus_detection.py:224-255 | definition: the mean of the three confidence factors; proved about in ConfidenceFactors and ConfidenceRange |
| CustomFocus.LevelRecommendations | custom_focus_detection.py:265-274 | definition: four lines for poor or unusable, two for acceptable, none otherwise; proved about in RecommendationsLead |
| CustomFocus.IssueRecommendation | custom_focus_detection.py:277-285 | definition: the line chosen by the first of the four phrases the lower-cased issue contains; proved about in IssueRecommendations and UniformBlurGetsShutterLine |
| CustomFocus.FocusRecommendations | custom_focus_detection.py:257-291 | definition: level lines, issue lines, then the low-confidence line below 0.7; proved about in GenerateFocusRecommendations, IssueLines and NoLowConfidenceLine |
| CustomFocus.MetricsOf | custom_focus_detection.py:110-123 | definition: the six sharpness readings, 0.0 each when missing; proved about in MissingSharpnessIsUnusable |
| CustomFocus.Details | custom_focus_detection.py:106-152 | definition: level, score, issues, confidence and breakdown from the readings; proved about in DetailsFacts |
| CustomFocus.FocusQuality | custom_focus_detection.py:94-100 | definition: the focus details of a report followed by their recommendations, the two additions `analyze_focus_quality` makes; proved about in AnalyzeFocusQuality |
| CustomFocus.FileName | custom_focus_detection.py:415 | definition: `Path(p).name`, the last path component with trailing slashes ignored; used in every batch record |
| CustomFocus.RecordAfter | custom_focus_detection.py:404-439 | definition: the summary record of a report, or the error record of what raised while reading it; proved about in RecordReport |
| CustomFocus.RecordFor | custom_focus_detection.py:399-439 | definition: the record of one path, an error record for an analysis that raised; proved about in AnalyzePath and AllErrorsAreUsable |
| CustomFocus.Recorder | custom_focus_detection.py:396-439 | definition: the per-path record function the batch maps over its paths; proved about in BatchAnalyzeFocus |
| CustomFocus.DistOf | custom_focus_detection.py:388-410 | definition: the level counters after a list of records, each summary counting under its level; proved about in DistCounts and Bump |
| CustomFocus.LevelCount | custom_focus_detection.py:410 | definition: the number of records with a level; proved about in DistCounts |
| CustomFocus.SummaryOf | custom_focus_detection.py:442-448 | definition: total, distribution, out-of-focus and usable counts; proved about in BatchSummaryFacts |
| CustomFocus.RecordStep | custom_focus_detection.py:404-423 | one more path appends its record to the per-path list and bumps its level counter exactly when the record is a summary |
| EnhancedForeignObjects.ClipFlagThreshold | enhanced_foreign_objects.py:158 | the clip flag threshold is the section's own `failure_threshold`, else 2 |
| EnhancedForeignObjects.BlackFlagThreshold | enhanced_foreign_objects.py:230 | the black-object flag threshold is the section's own `failure_threshold`, else 1 |
| EnhancedForeignObjects.DefaultFlagThresholds | enhanced_foreign_objects.py:26-56 | under the defaults the flag thresholds are the fallbacks 2 and 1 (not `failure_thresholds`), and the combined threshold is 3 |
| EnhancedForeignObjects.AspectRatio | enhanced_foreign_objects.py:130 | width over height, 0 for a zero height, never negative |
| EnhancedForeignObjects.PixelRegion | enhanced_foreign_objects.py:290-297 | the box widened by 20 pixels on every side, clamped to the image, contains the box |
| EnhancedForeignObjects.PixelationScore | enhanced_foreign_objects.py:286-311 | at most 1; 0 for an empty region; otherwise the gradient variance over 1000 below the cap |
| EnhancedForeignObjects.EdgePosition | enhanced_foreign_objects.py:385-400 | the nearest edge from the box's integer centre, and on a tie the first of top, bottom, left, right |
| EnhancedForeignObjects.Selected | enhanced_foreign_objects.py:114-147 | no more records than candidates |
| EnhancedForeignObjects.SelectedSound | enhanced_foreign_objects.py:114-147 | every record comes from a candidate that passed the filter |
| EnhancedForeignObjects.SelectedComplete | enhanced_foreign_objects.py:114-147 | every candidate that passes the filter yields a record |
| EnhancedForeignObjects.ClipDetection | enhanced_foreign_objects.py:89-159 | a zero-area image raises; otherwise the clips are the accepted contours in order, the total is their area, the percentage is of the image and the flag is percentage > threshold |
| EnhancedForeignObjects.DetectClipsAndTools | enhanced_foreign_objects.py:109-159 | the candidate loop computes exactly the clip detection |
| EnhancedForeignObjects.ClipAcceptance | enhanced_foreign_objects.py:118-137 | a contour is recorded exactly when it is large enough, near an edge, of valid aspect and pixelated enough |
| EnhancedForeignObjects.Penetration | enhanced_foreign_objects.py:313-328 | the share of the contour's area in the document, 0 for no area, in [0, 1] when the overlap is at most the area |
| EnhancedForeignObjects.MeanGray | enhanced_foreign_objects.py:347-349 | a mean grey level lies in [0, 255] |
| EnhancedForeignObjects.LocalContrast | enhanced_foreign_objects.py:330-354 | 0 when either pixel set is empty or the ring is black; otherwise the ring's mean over the object's mean plus epsilon; never negative |
| EnhancedForeignObjects.ClassifyBlackObject | enhanced_foreign_objects.py:356-383 | unknown exactly for zero perimeter, round above circularity 0.7, linear for aspect > 3 or < 0.3, then large above area 5000, else small |
| EnhancedForeignObjects.FlatObjectsAreLinear | enhanced_foreign_objects.py:371-379 | a box of zero height has aspect 0 and is never classed large or small |
| EnhancedForeignObjects.Centroid | enhanced_foreign_objects.py:402-411 | `(0, 0)` when m00 is 0; otherwise the truncated quotients, the floor of each non-negative one |
| EnhancedForeignObjects.BlackDetection | enhanced_foreign_objects.py:161-231 | the objects are the accepted blobs in order, the total is their area, the percentage is of the document (0 without one) and the flag is percentage > threshold |
| EnhancedForeignObjects.DetectBlackObjects | enhanced_foreign_objects.py:186-231 | the dark-contour loop computes exactly the black-object detection |
| EnhancedForeignObjects.BlackAcceptance | enhanced_foreign_objects.py:190-205 | a blob is recorded exactly when it is large enough, penetrates far enough and stands out from its ring |
| EnhancedForeignObjects.CountBelow | enhanced_foreign_objects.py:257 | at most one count per pixel |
| EnhancedForeignObjects.CountAbove | enhanced_foreign_objects.py:261 | at most one count per pixel |
| EnhancedForeignObjects.CountsDisjoint | enhanced_foreign_objects.py:257-261 | no pixel is both below the lower and above the higher threshold |
| EnhancedForeignObjects.Percent | enhanced_foreign_objects.py:268-269 | the percentage times the total is a hundred times the count, in [0, 100] for a count within the total |
| EnhancedForeignObjects.PercentFacts | enhanced_foreign_objects.py:268-269 | the source's quotient-times-100 obeys the same two facts |
| EnhancedForeignObjects.PercentAdd | enhanced_foreign_objects.py:268-269 | percentages of one total add up |
| EnhancedForeignObjects.ShadowAnalysis | enhanced_foreign_objects.py:233-284 | an empty document gives only the two false flags; otherwise mean ± 2 std thresholds, the counts below and above, their percentages in [0, 100], shadow flagged above 3 % and reflection above 2 % |
| EnhancedForeignObjects.ShadowReflectionDisjoint | enhanced_foreign_objects.py:255-269 | with a non-negative std, shadow and reflection share no pixel, so their percentages add up to at most 100 |
| EnhancedForeignObjects.ReasonOrder | enhanced_foreign_objects.py:433-441 | at most four reasons, in the order clip, black, shadow, reflection |
| EnhancedForeignObjects.ReasonPresence | enhanced_foreign_objects.py:433-441 | each reason is present exactly when its flag is raised |
| EnhancedForeignObjects.LinesFor | enhanced_foreign_objects.py:467-502 | three lines for each reason |
| EnhancedForeignObjects.AllLinesFor | enhanced_foreign_objects.py:467-502 | three lines per reason |
| EnhancedForeignObjects.AllLinesAppend | enhanced_foreign_objects.py:467-502 | the lines of two reason lists are the lines of each, in order |
| EnhancedForeignObjects.LinesOfOnly | enhanced_foreign_objects.py:474-499 | a flag contributes its three lines only when raised |
| EnhancedForeignObjects.RecommendationsFollowReasons | enhanced_foreign_objects.py:467-502 | the recommendations are the three lines of each failure reason, in the reasons' order |
| EnhancedForeignObjects.ImpactFor | enhanced_foreign_objects.py:513-520 | severe above 10 %, high above 5 %, moderate above 2 %, else low |
| EnhancedForeignObjects.ImpactMonotone | enhanced_foreign_objects.py:513-520 | more coverage never gives a milder impact |
| EnhancedForeignObjects.QualityImpact | enhanced_foreign_objects.py:504-520 | the impact is judged on clip, black and shadow coverage together |
| EnhancedForeignObjects.CombineResults | enhanced_foreign_objects.py:413-465 | the area is clip plus black; flagged iff either flag or the sum exceeds `combined_area_pct`; reasons, their lines, object count and impact; the detector results kept |
| EnhancedForeignObjects.ShadowsNeverFlag | enhanced_foreign_objects.py:422-430 | shadows and reflections never change the flag or its area |
| EnhancedForeignObjects.CombineAsWritten | enhanced_foreign_objects.py:509-511 | as written the combination raises exactly when the shadow result lacks its percentage (an empty mask) |
| EnhancedForeignObjects.EmptyMaskRaises | enhanced_foreign_objects.py:249-250 | an empty document mask makes the combination raise a KeyError on `shadow_percentage` |
| EnhancedForeignObjects.EmptyMaskCombines | enhanced_foreign_objects.py:509-511 | with the missing percentage read as 0, an empty document combines with no shadow or reflection reason and the impact of clips and black objects |
| EnhancedForeignObjects.ForeignObjectAnalysis | enhanced_foreign_objects.py:58-87 | a zero-area image raises its division by zero; a non-empty image with an empty document mask raises the KeyError `'shadow_percentage'` of the combination as written; otherwise the result is the combination of the three detectors |
| EnhancedForeignObjects.AnalyzeForeignObjects | enhanced_foreign_objects.py:58-87 | the entry point runs the three detectors and the as-written combination, computing exactly the analysis, KeyError on an empty mask included |
| EnhancedForeignObjects.EdgeName | enhanced_foreign_objects.py:393-398 | definition: the four edge names the `distances` dict lists; used in the clip records |
| EnhancedForeignObjects.EdgeDistance | enhanced_foreign_objects.py:389-398 | definition: the distance from the box's integer centre (`x + w // 2`, `y + h // 2`) to each edge; proved about in EdgePosition |
| EnhancedForeignObjects.ClipOf | enhanced_foreign_objects.py:138-145 | definition: the clip record of an accepted contour, with its aspect ratio, pixelation score and nearest edge; proved about in DetectClipsAndTools |
| EnhancedForeignObjects.SumOf | enhanced_foreign_objects.py:147 | definition: the running total of accepted areas, summed from the left; proved about in Selected and ClipDetection |
| EnhancedForeignObjects.KindName | enhanced_foreign_objects.py:356-383 | definition: the five type names the classifier returns; used in the black-object records |
| EnhancedForeignObjects.Circularity | enhanced_foreign_objects.py:368 | definition: `4 π area / perimeter²` for a non-zero perimeter; proved about in ClassifyBlackObject |
| EnhancedForeignObjects.BlackObjectOf | enhanced_foreign_objects.py:207-217 | definition: the record of an accepted blob, with its penetration, contrast, type and centroid; proved about in DetectBlackObjects |
| EnhancedForeignObjects.ShadowPct | enhanced_foreign_objects.py:268 | definition: the shadow percentage of a measured mask and 0.0 for an empty one, as CombineResults reads it; the as-written combination raises instead (EmptyMaskRaises) |
| EnhancedForeignObjects.ReflectionPct | enhanced_foreign_objects.py:269 | definition: the reflection percentage, 0.0 for an empty mask; proved about in ShadowReflectionDisjoint |
| EnhancedForeignObjects.FailureReasons | enhanced_foreign_objects.py:433-441 | definition: one reason per raised flag, in the order clip, black, shadow, reflection; proved about in ReasonOrder and ReasonPresence |
| EnhancedForeignObjects.RecommendationLines | enhanced_foreign_objects.py:467-502 | definition: the lines of every raised flag in the same order; proved about in RecommendationsFollowReasons and AllLinesFor |
| EnhancedForeignObjects.ImpactName | enhanced_foreign_objects.py:513-520 | definition: the four impact texts; proved about in QualityImpact and ImpactMonotone |
| ForeignObjectsIntegration.Below | foreign_objects_integration.py:103 | numbers and bools compare with `<`; any other value raises |
| ForeignObjectsIntegration.ErrorRecordHasNoScore | foreign_objects_integration.py:107-109 | the error record that replaces a failed analysis holds no `overall_score` |
| ForeignObjectsIntegration.ForeignReasons | foreign_objects_integration.py:122 | the detector's reasons are carried over one for one, in order |
| ForeignObjectsIntegration.CoverageSeverity | foreign_objects_integration.py:250-260 | HIGH above 5 %, MEDIUM above 2 %, else LOW |
| ForeignObjectsIntegration.GenerateFinalAssessment | foreign_objects_integration.py:229-266 | the assessment built step by step is exactly the final assessment |
| ForeignObjectsIntegration.AssessmentFacts | foreign_objects_integration.py:229-266 | PASS iff the image passed; a flagged image takes its coverage band, an unflagged failed one MEDIUM, and NONE exactly for an unflagged image that passed |
| ForeignObjectsIntegration.AnalyzeImageComprehensive | foreign_objects_integration.py:69-131 | the method computes exactly the comprehensive result, storing the detector's error (the KeyError of an empty mask included) and keeping the main-stage verdict |
| ForeignObjectsIntegration.RunMainStage | foreign_objects_integration.py:96-109 | the main stage's result, whether it fails the image, and its reason |
| ForeignObjectsIntegration.FinishAnalysis | foreign_objects_integration.py:114-131 | the detector stage and the assessment give exactly the assembled result |
| ForeignObjectsIntegration.MainStageComparable | foreign_objects_integration.py:96-109 | the main stage never leaves behind a score the assessment cannot compare |
| ForeignObjectsIntegration.ComprehensiveVerdict | foreign_objects_integration.py:69-131 | only a load failure raises; an image fails iff the main score is below 0.7 or the detector flags it, and the reasons say which, in that order |
| ForeignObjectsIntegration.StandaloneVerdict | foreign_objects_integration.py:28-35 | without the analyzer an image fails exactly when the detector flags it, and has no main analysis |
| ForeignObjectsIntegration.ResultSeverity | foreign_objects_integration.py:229-266 | a result is PASS, and has severity NONE, exactly when the image passed |
| ForeignObjectsIntegration.AnalysisErrors | foreign_objects_integration.py:192-198 | at most one analysis error per image |
| ForeignObjectsIntegration.SaveErrors | foreign_objects_integration.py:185-198 | at most one save error per image |
| ForeignObjectsIntegration.StepKeepsCounts | foreign_objects_integration.py:168-198 | one iteration keeps passed + failed = processed, failed_foreign_objects ≤ failed, and the failed list of exactly the failed results |
| ForeignObjectsIntegration.BatchCounters | foreign_objects_integration.py:165-198 | after the loop the counter relations hold |
| ForeignObjectsIntegration.BatchProcessed | foreign_objects_integration.py:168-198 | processed images plus those whose analysis raised make up the batch |
| ForeignObjectsIntegration.BatchEntries | foreign_objects_integration.py:168-198 | one entry per image, and one more for each result that could not be saved |
| ForeignObjectsIntegration.AnalyzeBatchFailures | foreign_objects_integration.py:268-301 | the loop over the failed images computes exactly their failure tally |
| ForeignObjectsIntegration.FailureTypeBounds | foreign_objects_integration.py:271-301 | every tally is at most the number of failures, and combined at most clips and at most black |
| ForeignObjectsIntegration.ForeignFailures | foreign_objects_integration.py:313-314 | at most one foreign-object failure per failed image |
| ForeignObjectsIntegration.BatchRecommendationShape | foreign_objects_integration.py:303-331 | no failures give the all-passed line; otherwise no line without a foreign failure, all seven when more than half are foreign, the three generic ones in between |
| ForeignObjectsIntegration.BatchAnalyzeWithForeignObjects | foreign_objects_integration.py:133-211 | raises exactly when creating the output directory (line 150) or dumping the batch summary (lines 205-207) raises, the directory first; otherwise the loop computes exactly the batch results, an empty-mask image counting as passed unless the main stage fails it |
| ForeignObjectsIntegration.ProcessImage | foreign_objects_integration.py:168-198 | one iteration updates the counters and lists as the batch step says |
| ForeignObjectsIntegration.ErrorRecord | foreign_objects_integration.py:109 | definition: the `{'error': str(e)}` record that replaces a failed stage's result (also line 126); proved about in ErrorRecordHasNoScore |
| ForeignObjectsIntegration.MainStage | foreign_objects_integration.py:96-109 | definition: the analyzer's result or its error record, and whether its `overall_score` is below 0.7; proved about in RunMainStage and MainStageComparable |
| ForeignObjectsIntegration.MainFails | foreign_objects_integration.py:103-105 | definition: the main analysis succeeded with an overall score below 0.7; stated by ComprehensiveVerdict |
| ForeignObjectsIntegration.QualityName | foreign_objects_integration.py:233 | definition: `PASS` or `FAIL` after the overall verdict; proved about in AssessmentFacts |
| ForeignObjectsIntegration.SeverityName | foreign_objects_integration.py:236-263 | definition: the four severity names `NONE`, `LOW`, `MEDIUM`, `HIGH`; proved about in CoverageSeverity and ResultSeverity |
| ForeignObjectsIntegration.FinalAssessment | foreign_objects_integration.py:229-266 | definition: the verdict, the main score as confidence, the issues and the severity, raising for a score that does not compare; proved about in GenerateFinalAssessment and AssessmentFacts |
| ForeignObjectsIntegration.MainPart | foreign_objects_integration.py:240-245 | definition: the confidence score and the poor-quality issue below 0.5 the usable main analysis contributes; proved about in AssessmentFacts |
| ForeignObjectsIntegration.Comprehensive | foreign_objects_integration.py:69-131 | definition: a load failure raises, else the two stages and the assessment assembled; the detector's KeyError on an empty mask is stored and keeps the main verdict; proved about in ComprehensiveVerdict, EmptyMaskKeepsVerdict and AnalyzeImageComprehensive |
| ForeignObjectsIntegration.Assemble | foreign_objects_integration.py:88-131 | definition: pass, reasons and assessment of a loaded image from the two stage outcomes; proved about in FinishAnalysis and ComprehensiveVerdict |
| ForeignObjectsIntegration.EmptyMaskKeepsVerdict | foreign_objects_integration.py:114-126 | for a non-empty image whose document mask is empty, the detector's entry is the KeyError `'shadow_percentage'` and the image passes exactly when the main stage does not fail it |
| ForeignObjectsIntegration.Step | foreign_objects_integration.py:168-198 | definition: one loop pass, an error entry for a raising analysis, else the result counted and a failed save's error entry after it; proved about in StepKeepsCounts, AnalysisErrors and SaveErrors |
| ForeignObjectsIntegration.EmptyMaskImagePasses | foreign_objects_integration.py:168-178 | an empty-mask image the main stage does not fail counts as processed and passed, leaving the failure counters unchanged |
| ForeignObjectsIntegration.BatchRun | foreign_objects_integration.py:165-198 | definition: the batch state after the loop over the images; proved about in BatchCounters, BatchProcessed and BatchEntries |
| ForeignObjectsIntegration.Tally | foreign_objects_integration.py:271-299 | definition: what one failed image adds to each failure type; proved about in FailureTypeBounds |
| ForeignObjectsIntegration.FailureTypesOf | foreign_objects_integration.py:268-301 | definition: the failure tally over the failed images; proved about in AnalyzeBatchFailures, FailureTypeBounds and ForeignFailures |
| ForeignObjectsIntegration.BatchRecommendations | foreign_objects_integration.py:303-331 | definition: the all-passed line without failures, else the lines the failure shares call for; proved about in BatchRecommendationShape |
| ForeignObjectsIntegration.BatchOf | foreign_objects_integration.py:133-211 | definition: the batch results of the runs, with the failure analysis and recommendations; proved about in BatchAnalyzeWithForeignObjects |
| ForeignObjectsIntegration.RecordOutcome | foreign_objects_integration.py:170-198 | counting and recording one image's outcome yields exactly the loop step's new state |
| ForeignObjectsIntegration.LoadConfigAsWritten | foreign_objects_integration.py:41-67 | as written, construction succeeds exactly when the configuration file exists and parses, with that configuration; otherwise the fallback raises AttributeError, because `self.detector` is not yet assigned |
| ForeignObjectsIntegration.LoadConfig | foreign_objects_integration.py:56-67 | the configuration is the file's when it exists and parses, and the detector's defaults otherwise |
| ForeignObjectsIntegration.MissingConfigFileRaises | foreign_objects_integration.py:41-67 | without a readable file, construction as written raises where the corrected loader uses the defaults; with one the two agree |
| DemoFocus.ReadingOf | demo_focus_workflow.py:268-269 | a result reads unless it, or its `focus_analysis`, has no `.get`; missing keys read as `unknown` and 0.0 |
| DemoFocus.SummaryReadingOf | demo_focus_workflow.py:268-272 | the summary loop also raises on a level that cannot be looked up among the dict's keys |
| DemoFocus.SummaryReadingsLength | demo_focus_workflow.py:267-277 | one reading per result |
| DemoFocus.CountTotal | demo_focus_workflow.py:271-272 | counting a level adds one to the distribution exactly when it is one of the five names |
| DemoFocus.CountFailing | demo_focus_workflow.py:271-275 | counting a level adds one to poor plus unusable exactly when it fails for focus |
| DemoFocus.NamedAtMostAll | demo_focus_workflow.py:271-272 | no more named readings than readings |
| DemoFocus.TallyTotal | demo_focus_workflow.py:259-272 | the distribution counts exactly the readings with a named level |
| DemoFocus.FailedIsPoorPlusUnusable | demo_focus_workflow.py:271-275 | failed for focus equals poor plus unusable |
| DemoFocus.Scores | demo_focus_workflow.py:277 | one score per reading, in order |
| DemoFocus.SumScores | demo_focus_workflow.py:284 | `sum` succeeds exactly when every score is a number or a bool |
| DemoFocus.SumScoresIsSum | demo_focus_workflow.py:284 | the sum is the sum of the scores as numbers |
| DemoFocus.SuccessRate | demo_focus_workflow.py:283 | in [0, 100]; 0 for no images; otherwise the share not failed, in percent |
| DemoFocus.FailedAtMostAll | demo_focus_workflow.py:274-275 | no more failures than readings |
| DemoFocus.Summarize | demo_focus_workflow.py:279-285 | the summary raises exactly when a score cannot be summed, and then counts every image, the failed ones at most all |
| DemoFocus.SummaryCounts | demo_focus_workflow.py:256-285 | the total is the number of results, the distribution counts at most that, and failures are the poor plus the unusable |
| DemoFocus.SummaryRates | demo_focus_workflow.py:283-284 | the success rate of the counts, and a zero average for no images |
| DemoFocus.SummaryAverage | demo_focus_workflow.py:284 | for a non-empty batch the average is the mean of the scores |
| DemoFocus.SummarizeFocusResults | demo_focus_workflow.py:256-285 | the loop computes exactly the summary |
| DemoFocus.SummaryReadingsPrefix | demo_focus_workflow.py:267-277 | a failure in a prefix is the failure of the whole batch |
| DemoFocus.FailingIndices | demo_focus_workflow.py:312-317 | the failing positions lie inside the results |
| DemoFocus.FailingIndicesExact | demo_focus_workflow.py:312-317 | the positions rise, each is out of focus, and every out-of-focus position is listed |
| DemoFocus.OutOfFocusKeeps | demo_focus_workflow.py:307-319 | the filter returns the results at the failing positions |
| DemoFocus.FilterKeepsExactlyTheFailing | demo_focus_workflow.py:307-319 | the filter keeps exactly the out-of-focus results, in their order |
| DemoFocus.FilterMatchesSummary | demo_focus_workflow.py:274-317 | the filter keeps as many results as the summary counts failed for focus |
| DemoFocus.FilterOutOfFocusImages | demo_focus_workflow.py:307-319 | the loop computes exactly the filter |
| DemoFocus.OutOfFocusPrefix | demo_focus_workflow.py:312-317 | a failure in a prefix is the failure of the whole filter |
| DemoFocus.SimulatedReading | demo_focus_workflow.py:182-252 | each simulated result reads as its level and score |
| DemoFocus.SummaryReadingsSnoc | demo_focus_workflow.py:267-277 | reading one more result extends the readings |
| DemoFocus.OutOfFocusSnoc | demo_focus_workflow.py:312-317 | filtering one more result appends it exactly when it is out of focus |
| DemoFocus.FixtureLevels | demo_focus_workflow.py:182-252 | of the fixture's levels only `poor` fails for focus |
| DemoFocus.FixtureCounts | demo_focus_workflow.py:271-272 | each fixture level goes to its own counter |
| DemoFocus.SumScoresSnoc | demo_focus_workflow.py:284 | one more numeric score adds to the sum |
| DemoFocus.SimulatedResultsRead | demo_focus_workflow.py:178-253 | the fixture reads as its three readings |
| DemoFocus.TallyThree | demo_focus_workflow.py:267-277 | three readings are tallied one after the other |
| DemoFocus.SimulatedTally | demo_focus_workflow.py:178-277 | the fixture counts one good, one acceptable, one poor, and one failure |
| DemoFocus.SimulatedScores | demo_focus_workflow.py:182-252 | the fixture's scores sum to 245.7 + 68.4 + 138.2 |
| DemoFocus.SimulatedSummary | demo_focus_workflow.py:178-285 | on the fixture one image fails, the success rate is 200/3 and the average the mean of the three scores |
| DemoFocus.TallySnoc | demo_focus_workflow.py:267-277 | one more reading updates the tally, the failures and the scores |
| DemoFocus.SimulatedFilter | demo_focus_workflow.py:178-319 | the filter picks out the blurry image alone |
| DemoFocus.SummaryReadings | demo_focus_workflow.py:267-277 | definition: the readings of the results in order, or the first failure; proved about in SummaryReadingsLength, SummaryReadingsPrefix and SummaryReadingsSnoc |
| DemoFocus.Count | demo_focus_workflow.py:271-272 | definition: one distribution step, counting a level only when it is a key; proved about in CountTotal and CountFailing |
| DemoFocus.Tally | demo_focus_workflow.py:259-272 | definition: the distribution over the readings; proved about in TallyTotal, TallySnoc and TallyThree |
| DemoFocus.FailedCount | demo_focus_workflow.py:274-275 | definition: the readings whose level is poor or unusable; proved about in FailedIsPoorPlusUnusable and FailedAtMostAll |
| DemoFocus.NamedCount | demo_focus_workflow.py:271 | definition: the readings whose level is one of the five keys; proved about in NamedAtMostAll |
| DemoFocus.ScoreNumber | demo_focus_workflow.py:284 | definition: a score as `sum` adds it, a bool read as 0 or 1; proved about in SumScoresIsSum |
| DemoFocus.SummaryOf | demo_focus_workflow.py:256-285 | definition: the summary dict of the readings, or the first failure; proved about in SummaryCounts, SummaryRates and SummaryAverage |
| DemoFocus.OutOfFocus | demo_focus_workflow.py:307-319 | definition: the failing results in order, or the first AttributeError; proved about in OutOfFocusKeeps, FilterKeepsExactlyTheFailing and FilterMatchesSummary |
| DemoFocus.Simulated | demo_focus_workflow.py:182-252 | definition: one simulated result with the fields the workflow reads; proved about in SimulatedReading and SimulatedResultsRead |
| FilenameGeneration.SafeIsNeitherInvalidNorSpace | test_filename_generation.py:11-13 | a safe character is neither forbidden nor whitespace, and survives the second substitution |
| FilenameGeneration.ReplaceInvalid | test_filename_generation.py:11 | the substitution keeps the length |
| FilenameGeneration.KeepAllowed | test_filename_generation.py:12 | only word characters, whitespace, `-`, `_` and `.` remain |
| FilenameGeneration.Squeeze | test_filename_generation.py:13-14 | every output character is an underscore or an input character outside the squeezed class |
| FilenameGeneration.StripLeading | test_filename_generation.py:15 | the stripped name is a suffix, does not start with `_`, and only underscores were removed |
| FilenameGeneration.StripTrailing | test_filename_generation.py:15 | the stripped name is a prefix, does not end with `_`, and only underscores were removed |
| FilenameGeneration.SqueezeSingles | test_filename_generation.py:14 | after squeezing no two underscores are adjacent, and after a run none leads |
| FilenameGeneration.CleanFilenameIsClean | test_filename_generation.py:8-16 | a cleaned name holds only safe characters, no `__` and no underscore at either end |
| FilenameGeneration.CleanFilenameBans | test_filename_generation.py:8-16 | a cleaned name has no forbidden character and no whitespace |
| FilenameGeneration.ReplaceInvalidKeeps | test_filename_generation.py:11 | a name without forbidden characters is unchanged by the first step |
| FilenameGeneration.KeepAllowedKeeps | test_filename_generation.py:12 | a name of kept characters is unchanged by the second step |
| FilenameGeneration.SqueezeAbsent | test_filename_generation.py:13 | a name without the squeezed class is unchanged |
| FilenameGeneration.SqueezeSinglesKeeps | test_filename_generation.py:14 | a name without `__` is unchanged by the fourth step |
| FilenameGeneration.CleanKeepsClean | test_filename_generation.py:8-16 | a clean name is its own cleaning |
| FilenameGeneration.CleanFilenameIdempotent | test_filename_generation.py:8-16 | cleaning twice is cleaning once |
| FilenameGeneration.EssenceAppend | test_filename_generation.py:8-16 | the essential characters of a concatenation are those of its parts |
| FilenameGeneration.EssenceOfUnderscores | test_filename_generation.py:14-15 | a run of underscores has no essential characters |
| FilenameGeneration.ReplaceInvalidEssence | test_filename_generation.py:11 | the first step keeps the essential characters |
| FilenameGeneration.KeepAllowedEssence | test_filename_generation.py:12 | the second step keeps the essential characters |
| FilenameGeneration.SqueezeEssence | test_filename_generation.py:13-14 | squeezing keeps the essential characters |
| FilenameGeneration.StripEssence | test_filename_generation.py:15 | stripping keeps the essential characters |
| FilenameGeneration.CleanFilenameKeepsEssence | test_filename_generation.py:8-16 | letters, digits, `-` and `.` all survive cleaning, in their order |
| FilenameGeneration.ChooseBaseFacts | test_filename_generation.py:50-70 | a folder heads the base only when it is neither a system folder nor empty; a generic image with such a folder takes it; a 5-40 character descriptive image is used whole; a long one is cut to 20 behind the folder or to 40; the base is 5 to max(40, folder + 21) long |
| FilenameGeneration.ChooseBaseSafe | test_filename_generation.py:50-70 | built from clean names, the base holds only safe characters |
| FilenameGeneration.Pad2 | test_filename_generation.py:73-74 | two decimal digits |
| FilenameGeneration.Pad4 | test_filename_generation.py:73 | four decimal digits |
| FilenameGeneration.Timestamp | test_filename_generation.py:73 | the long timestamp has 19 characters |
| FilenameGeneration.ShortTimestamp | test_filename_generation.py:74 | the short timestamp has 9 characters |
| FilenameGeneration.Pad2Read | test_filename_generation.py:73-74 | a two-digit field reads back as its number |
| FilenameGeneration.TimestampRoundTrip | test_filename_generation.py:73 | the long timestamp reads back as the clock reading |
| FilenameGeneration.ShortTimestampOfLong | test_filename_generation.py:73-74 | the short timestamp is the long one without the year and the seconds |
| FilenameGeneration.FinalName | test_filename_generation.py:76-80 | the base, `_`, the short timestamp exactly when the base is longer than 30 and the long one otherwise, then `.xlsx` |
| FilenameGeneration.FinalNameSafe | test_filename_generation.py:76-80 | from a safe base the final name has only safe characters |
| FilenameGeneration.ReportFileName | test_filename_generation.py:38-80 | the report name as written, whose system-folder test compares the cleaned folder with the list as written, holds only safe characters and ends in `.xlsx` |
| FilenameGeneration.LowerKeepsNoSpace | test_filename_generation.py:48 | lower-casing adds no space |
| FilenameGeneration.GoogleDriveNeverMatches | test_filename_generation.py:39-48 | as written, no cleaned folder is ever `google drive` |
| FilenameGeneration.AsWrittenSystemFolders | test_filename_generation.py:44-48 | as written, only the other eight system folders can be recognised |
| FilenameGeneration.CleanSystemFoldersAreCleaned | test_filename_generation.py:44-45 | the corrected list is the written one with the space of `google drive` cleaned to `_` |
| FilenameGeneration.GoogleDriveRecognised | test_filename_generation.py:44-48 | with the corrected list a folder cleaned to `google_drive` is a system folder, and as written it is not |
| FilenameGeneration.SqueezeAppend | test_filename_generation.py:13 | leading characters outside the class pass a squeeze unchanged |
| FilenameGeneration.JoinedSqueeze | test_filename_generation.py:13 | one space between two words becomes one underscore |
| FilenameGeneration.JoinedSingles | test_filename_generation.py:14-15 | two clean words joined by `_` form a clean name |
| FilenameGeneration.CleanJoinsWords | test_filename_generation.py:8-16 | two clean words with one space between them clean to the words joined by `_` |
| FilenameGeneration.GoogleDriveWords | test_filename_generation.py:45 | `Google` and `Drive` are clean words |
| FilenameGeneration.GoogleDriveCleans | test_filename_generation.py:39 | the folder `Google Drive` cleans to `Google_Drive` |
| FilenameGeneration.LowerKeeps | test_filename_generation.py:47-48 | lower-casing a name without capitals changes nothing |
| FilenameGeneration.ScanIsClean | test_filename_generation.py:38 | `scan001` is already clean |
| FilenameGeneration.ScanIsGeneric | test_filename_generation.py:42-47 | `scan001` is a generic image name |
| FilenameGeneration.GoogleDriveLower | test_filename_generation.py:48 | `Google_Drive` lower-cases to `google_drive` |
| FilenameGeneration.ExampleChoiceAsWritten | test_filename_generation.py:51-53 | for `scan001` in a folder not taken as a system folder, the folder names the report |
| FilenameGeneration.ExampleChoiceCorrected | test_filename_generation.py:64-70 | for `scan001` in a system folder, the default base is used |
| FilenameGeneration.GoogleDriveChoice | test_filename_generation.py:38-70 | any generic image in the `Google Drive` folder is named after the folder as written, and gets the default name when the folder is recognised |
| FilenameGeneration.GoogleDriveExample | test_filename_generation.py:38-70 | `scan001` in `Google Drive` gets `Google_Drive_Analysis` as written and `Quality_Analysis` as intended |
| FilenameGeneration.CleanFilename | test_filename_generation.py:8-16 | definition: the five substitutions in order; proved about in CleanFilenameIsClean, CleanFilenameBans, CleanFilenameIdempotent and CleanFilenameKeepsEssence |
| FilenameGeneration.Essence | test_filename_generation.py:11-15 | definition: the characters no cleaning step touches, in order; proved about in CleanFilenameKeepsEssence |
| FilenameGeneration.IsGenericImage | test_filename_generation.py:42-47 | definition: some generic name occurs in the lower-cased image name; proved about in ScanIsGeneric |
| FilenameGeneration.IsSystemFolderAsWritten | test_filename_generation.py:44-48 | definition: the lower-cased cleaned folder is one of the system folders as listed; proved about in AsWrittenSystemFolders and GoogleDriveNeverMatches |
| FilenameGeneration.IsSystemFolder | test_filename_generation.py:44-48 | definition: the same test against the cleaned system-folder names; proved about in CleanSystemFoldersAreCleaned and GoogleDriveRecognised |
| FilenameGeneration.ChooseBase | test_filename_generation.py:50-70 | definition: the five-way rule chain, given the system-folder test; proved about in ChooseBaseFacts and ChooseBaseSafe |
| FilenameGeneration.BaseNameAsWritten | test_filename_generation.py:38-70 | definition: the rule chain on the cleaned names with the system-folder test as written; proved about in ExampleChoiceAsWritten and GoogleDriveChoice |
| FilenameGeneration.BaseName | test_filename_generation.py:38-70 | definition: the rule chain with system folders recognised after cleaning; proved about in ExampleChoiceCorrected and GoogleDriveChoice |
| FilenameGeneration.ReadTimestamp | test_filename_generation.py:73 | definition: the clock reading a long timestamp spells, if any; proved about in TimestampRoundTrip |
| FilenameGeneration.ReportFileNameCorrected | test_filename_generation.py:38-80 | the report name built on the corrected base name consists only of safe characters and ends in `.xlsx` |
| FilenameGeneration.GoogleDriveReportNames | test_filename_generation.py:38-80 | for "scan001" in "Google Drive" the report name as written is headed by `Google_Drive_Analysis`, the corrected one by `Quality_Analysis` |
| FilenameGeneration.SliceKeepsClean | test_filename_generation.py:15 | a contiguous part of a name without unsafe characters or `__` has neither |
| FilenameGeneration.SqueezedSafe | test_filename_generation.py:12-14 | after the two squeezes of kept characters only safe characters remain |
| FilenameGeneration.StripKeepsClean | test_filename_generation.py:15 | stripping both ends of such a name leaves it clean, with no underscore at either end |
| FilenameGeneration.StripLeadingEssence | test_filename_generation.py:15 | `lstrip('_')` keeps every essential character in order |
| FilenameGeneration.StripTrailingEssence | test_filename_generation.py:15 | `rstrip('_')` keeps every essential character in order |
| Stats.SortReals | image_quality_analyzer/metrics/exposure.py:170 | the sorted list that `np.median` reads is a permutation of the values |
| Stats.SortSorted | image_quality_analyzer/metrics/exposure.py:170 | the list is in ascending order |
| Stats.MedianBetween | image_quality_analyzer/metrics/exposure.py:170 | the median lies between any bounds of the values |
| Stats.MaxOf | image_quality_analyzer/metrics/exposure.py:173 | `np.max` is at least every value and is one of them |
| Stats.MinOf | image_quality_analyzer/metrics/exposure.py:172 | `np.min` is at most every value and is one of them |
| Stats.Range | image_quality_analyzer/metrics/exposure.py:191 | the greatest minus the least value bounds every difference and is never negative |
| Stats.MeanBetween | image_quality_analyzer/metrics/exposure.py:169 | the mean lies between any bounds of the values |
| Stats.PercentileBetween | image_quality_analyzer/metrics/exposure.py:181-182 | a percentile lies between the least and the greatest value |
| Stats.PercentileMono | image_quality_analyzer/metrics/exposure.py:181-182 | a higher percentile is never smaller |
| Stats.Median | image_quality_analyzer/metrics/exposure.py:170 | definition: `np.median`, the middle sorted value or the mean of the two middle ones; proved about in MedianBetween |
| Stats.Mean | image_quality_analyzer/metrics/exposure.py:169 | definition: `np.mean` of a non-empty list; proved about in MeanBetween |
| Stats.Interpolate | image_quality_analyzer/metrics/exposure.py:174 | definition: linear interpolation at a fractional index of sorted values; proved about in InterpolateBetween and InterpolateMono |
| Stats.Percentile | image_quality_analyzer/metrics/exposure.py:174 | definition: `np.percentile` with numpy's default linear method; proved about in PercentileBetween and PercentileMono |
| Stats.InterpolateBetween | image_quality_analyzer/metrics/exposure.py:174 | an interpolated percentile lies between the two sorted neighbours of its fractional index |
| Stats.InterpolateMono | image_quality_analyzer/metrics/exposure.py:174 | on sorted values, interpolation is monotone in the fractional index |

## Left out

- Pixel numerics: Otsu and adaptive thresholding, contours, Canny, Hough, Sobel, Laplacian, Gaussian blur, FFT band energies, LAB conversion, `np.std` and `np.polyfit` are computed by OpenCV and numpy, so their results are parameters. The sharpness, contrast, noise, color and foreign-object computers enter the analyzer only as what they return or raise.
- Floating point: every score is an exact `real`. IEEE rounding, such as the mean of 0.6, 0.7 and 0.8 landing just below 0.7, is not modelled. Neither is the rounding of `.1f` and `round(...)` in report strings and values.
- Type errors: where the scoring and configuration rules compare a dict value with a number, the model reads a value that is not a number or a bool as the key's default. Python would raise TypeError. A config section that is not a dict reads as `{}` instead of raising AttributeError. Completeness and format integrity are the exceptions: their raises, including the AttributeError of `config.get` on a config that is not a dict, are modelled as `Err` results.
- Completeness.Compute: a float whose value is an integer, such as 8.0, is read as the int 8, because Values.Num does not tell 8 from 8.0. Python's slices raise TypeError for every float, integral ones included. The same holds for Completeness.MinMarginPx.
- FormatIntegrity.ParseFloat: the strings "inf", "infinity" and "nan" are refused, where Python's `float()` accepts them. The value is the exact decimal, not the nearest double: there is no rounding, no overflow to infinity and no underflow to zero. FormatIntegrity.ResolutionCompute inherits this.
- FormatIntegrity.ParseInt: only the ASCII digits 0-9 are digits. Python's `int()` and `float()` also accept other Unicode decimal digits. FormatIntegrity.AnalyzeMetadata inherits this through `int(bit_depth)`.
- FormatIntegrity.FormatName: `lower()` is the ASCII lower-casing of BaseMetrics.Lower. Python lower-cases every cased Unicode letter.
- Config.LoadDefaultConfig: returns a value equal to `DEFAULT_CONFIG`. Values have no identity here, so the shallow copy that shares nested sections with `DEFAULT_CONFIG` is not modelled. Neither is the mutation of the default through an alias.
- Config.ValidateConfig: states only the schema's two nested requirements, as a predicate. The rest of the jsonschema validation is a foreign library.
- Configuration keys that no rule reads are not modelled: the detector's `local_sharpness_threshold`, the `focus_classification` descriptions (read only by the printed report), `shadow_detection`, and the `clip_area_pct` and `black_object_area_pct` failure thresholds.
- Output: `export_json_report`, `get_config` (a shallow copy), the pandas writing in `export_csv_comparison`, the JSON saves of the helper scripts, the Excel export, and every `print_*`, `_print_*` and `main` function are I/O and printing. The model keeps only the row selection, the path guard and the file name.
- Input: loading configuration files (`EnhancedFocusDetector.__init__`, `ForeignObjectsIntegration._load_config`), reading images and PIL metadata, and the analyzer call inside the helper scripts are parameters of the model.
- `analyze_document_with_foreign_objects` in enhanced_foreign_objects.py and `_create_document_mask` in foreign_objects_integration.py build a mask with OpenCV before calling the modelled detector. They are not modelled. Neither is `_make_json_serializable`, which only converts numpy types. The dumps it feeds are inputs: the per-image dump as `ImageRun.saveError`, and the creation of the output directory and the summary dump as `BatchWrites`. A dump that raises, for instance on a numpy bool the conversion leaves as it is, is one of their possible messages.
- Document masks are assumed to hold only 0 and 1, as `create_document_mask` produces them. Other cell values are not modelled.
- Exception texts: messages of Python's own exceptions (KeyError, TypeError, AttributeError) are approximated by fixed strings. The repository's own `ValueError` messages are kept.
- Paths: `os.path` and `pathlib` are modelled on POSIX strings (`/` separators, the last `.` for the extension). Path normalisation, `~` expansion and drive letters are not.
- Clock: the time for export file names is a parameter. Years are padded to four digits, so years below 1000 are not modelled the way the platform's `%Y` prints them.
- Regular expressions: `\s` in `clean_filename` is the set of characters Python's `str.isspace` accepts, Unicode spaces included, as `re` matches it on a `str`. `\w` is restricted to the ASCII letters, digits and the underscore: Unicode letters and digits, which Python's `re` also treats as word characters, are not modelled.
- Analyzer.BitsValue: a float whose value is an integer, such as 8.0, is read as the int 8, because Values.Num does not tell 8 from 8.0. Python's indexing of a float raises there, and the metadata then falls back to its default.
- Demo and integration fixtures: `create_simulated_results` is modelled with only the fields that the summary and the filter read. `metrics_breakdown`, `focus_issues` and `focus_recommendations` are left out.
- Dead wiring: the analyzer never registers the document-shadow computer and never calls the SLA evaluator. The integration's import of `image_quality_analyzer.core` always fails. Each is modelled as written, with the consequence stated in a lemma, and not as intended behaviour.
- Concurrency, the GUI and web front ends, the CLI, visualization and licensing are not part of this model.

## Findings

| source | as written | input that shows it | evidently intended | confidence | as-written member | corrected member |
|---|---|---|---|---|---|---|
| image_quality_analyzer/metrics/document_shadow.py:349-356 | `np.diff` on the `uint8` samples wraps: a step of -1 becomes 255, so only steps 0 and +1 count as stable | samples 200, 199, 198 give width 6 instead of 0 | the absolute intensity step, as on signed values | not executed | DocumentShadow.DecreasingRunDiffers | DocumentShadow.ShadowWidthFacts |
| image_quality_analyzer/analyzer.py:222 | `os.makedirs(os.path.dirname(path))` raises for a path without a directory, since `os.makedirs('')` fails | output path `comparison.csv` | create a directory only when the path names one, then write the file | not executed | Analyzer.ComparisonCsvFails | Analyzer.ExportCsv |
| enhanced_foreign_objects.py:509-511 | the impact assessment reads `shadow_results['shadow_percentage']`, which the empty-mask shadow result (lines 249-250) lacks, so a KeyError follows; the entry point (ForeignObjectAnalysis) and the integration, which stores the error and keeps the main verdict, are modelled this way | an empty document mask | treat the missing percentage as 0 and combine normally | not executed | EnhancedForeignObjects.EmptyMaskRaises | EnhancedForeignObjects.EmptyMaskCombines |
| test_filename_generation.py:44-48 | the system-folder list holds `google drive` with a space, but the folder name is cleaned first, so spaces are already `_` and the entry never matches; ReportFileName is modelled this way and ReportFileNameCorrected with the fix (GoogleDriveReportNames) | image `scan001` in folder `Google Drive` | recognise the cleaned name `google_drive` as a system folder | not executed | FilenameGeneration.GoogleDriveNeverMatches | FilenameGeneration.GoogleDriveRecognised |
| foreign_objects_integration.py:45-67 | `__init__` calls `_load_config` before it assigns `self.detector`, so the fallback `self.detector._get_default_config()` raises AttributeError | no `config_foreign_objects.json` in the working directory, or one that does not parse | fall back to the detector's default configuration | not executed | ForeignObjectsIntegration.LoadConfigAsWritten | ForeignObjectsIntegration.LoadConfig |
