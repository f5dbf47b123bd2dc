// The integration layer that runs the foreign-object detector next to the
// main quality analysis: the pass/fail decision for one image, its final
// assessment, and the batch loop with its counters, failure tally and
// batch-level recommendations. Image loading, the analyzer call, the
// per-image JSON write, the creation of the output directory and the
// batch-summary JSON write are inputs: what they return, or the message
// they raise.

module ForeignObjectsIntegration {
  import opened Values
  import EFO = EnhancedForeignObjects

  /**
   * The analyzer is imported from `image_quality_analyzer.core`, a package
   * that does not exist, so the import always fails and the analyzer is
   * never run.
   */
  const AnalyzerAvailable := false

  // ---------------------------------------------------------------------------
  // Construction

  const DetectorMissingError := "AttributeError: 'ForeignObjectsIntegration' object has no attribute 'detector'"

  /** Where the integration's configuration comes from: the file, or the detector's defaults. */
  datatype LoadedConfig = FileConfig(v: Value) | DetectorDefaults

  /**
   * `__init__` as written. `file` is what reading the configuration file gave:
   * None when the file does not exist, Err when it does not parse. `_load_config`
   * runs before `self.detector` is assigned, so its fallback to the detector's
   * defaults raises.
   */
  function LoadConfigAsWritten(file: Option<Result<Value>>): (r: Result<LoadedConfig>)
    ensures r.Ok? <==> file.Some? && file.value.Ok?
    ensures r.Ok? ==> r.value == FileConfig(file.value.value)
    ensures r.Err? ==> r.message == DetectorMissingError
  {
    match file
    case Some(Ok(v)) => Ok(FileConfig(v))
    case _ => Err(DetectorMissingError)
  }

  /** `_load_config` with the fallback it means: the detector's default configuration. */
  function LoadConfig(file: Option<Result<Value>>): (r: LoadedConfig)
    ensures r.DetectorDefaults? <==> !(file.Some? && file.value.Ok?)
    ensures r.FileConfig? ==> r.v == file.value.value
  {
    match file
    case Some(Ok(v)) => FileConfig(v)
    case _ => DetectorDefaults
  }

  /**
   * Without a readable configuration file construction raises as written, where
   * the corrected loader falls back to the defaults; with one the two agree.
   */
  lemma MissingConfigFileRaises(file: Option<Result<Value>>)
    ensures !(file.Some? && file.value.Ok?) ==> LoadConfigAsWritten(file).Err? && LoadConfig(file) == DetectorDefaults
    ensures file.Some? && file.value.Ok? ==> LoadConfigAsWritten(file) == Ok(LoadConfig(file))
  {
  }

  // ---------------------------------------------------------------------------
  // Comparing a looked-up score

  /**
   * `v < bound`: numbers compare, a bool compares as 0 or 1, and anything
   * else raises a TypeError (None).
   */
  function Below(v: Value, bound: real): (r: Option<bool>)
    ensures r.Some? <==> v.Num? || v.Bool?
    ensures v.Num? ==> r == Some(v.n < bound)
    ensures v.Bool? ==> r == Some((if v.b then 1.0 else 0.0) < bound)
  {
    match v
    case Num(x) => Some(x < bound)
    case Bool(b) => Some((if b then 1.0 else 0.0) < bound)
    case _ => None
  }

  const ScoreKey := "overall_score"
  const ErrorKey := "error"
  const TypeErrorMessage := "'<' not supported between instances"
  const LoadErrorPrefix := "Could not load image: "

  /** The `{'error': str(e)}` record that replaces a failed stage's result. */
  function ErrorRecord(message: string): Value
  {
    Obj([(ErrorKey, Str(message))])
  }

  lemma ErrorRecordHasNoScore(message: string)
    ensures !Has(ErrorRecord(message), ScoreKey)
  {
    assert |ScoreKey| == 13 && |ErrorKey| == 5;
    assert Keys(ErrorRecord(message).fields) == [ErrorKey];
  }

  // ---------------------------------------------------------------------------
  // One image

  datatype FailureReason =
    | StandardChecksFailed
    | ForeignReason(reason: EFO.Reason)

  const StandardChecksLine := "Failed standard image quality checks"

  function ForeignReasons(rs: seq<EFO.Reason>): (r: seq<FailureReason>)
    ensures |r| == |rs|
    ensures forall k :: 0 <= k < |rs| ==> r[k] == ForeignReason(rs[k])
  {
    seq(|rs|, k requires 0 <= k < |rs| => ForeignReason(rs[k]))
  }

  /**
   * The main stage: the analyzer's result (or the error record that replaces
   * it) and whether its overall score fails the 0.7 bar.
   */
  function MainStage(run: Option<Result<Value>>): (Option<Value>, bool)
  {
    match run
    case None => (None, false)
    case Some(Err(e)) => (Some(ErrorRecord(e)), false)
    case Some(Ok(v)) =>
      if !Has(v, ScoreKey) then (Some(v), false)
      else
        match Below(Lookup(v, ScoreKey).value, 0.7)
        case Some(low) => (Some(v), low)
        case None => (Some(ErrorRecord(TypeErrorMessage)), false)
  }

  /** The main analysis succeeded and reported an overall score below 0.7. */
  predicate MainFails(run: Option<Result<Value>>)
  {
    && run.Some? && run.value.Ok?
    && Has(run.value.value, ScoreKey)
    && Below(Lookup(run.value.value, ScoreKey).value, 0.7) == Some(true)
  }

  predicate ForeignFlagged(foreign: Result<EFO.Combined>)
  {
    foreign.Ok? && foreign.value.flag
  }

  datatype Quality = Pass | Fail

  const PassName := "PASS"
  const FailName := "FAIL"

  function QualityName(q: Quality): string
  {
    match q
    case Pass => PassName
    case Fail => FailName
  }

  datatype Severity = NoSeverity | LowSeverity | MediumSeverity | HighSeverity

  const NoneName := "NONE"
  const LowName := "LOW"
  const MediumName := "MEDIUM"
  const HighName := "HIGH"

  function SeverityName(s: Severity): string
  {
    match s
    case NoSeverity => NoneName
    case LowSeverity => LowName
    case MediumSeverity => MediumName
    case HighSeverity => HighName
  }

  /** A primary issue; an interference issue reports its coverage. */
  datatype Issue =
    | PoorOverallQuality
    | Interference(severity: Severity, coverage: real)

  datatype Assessment = Assessment(
    overallQuality: Quality,
    confidenceScore: Value,
    primaryIssues: seq<Issue>,
    severity: Severity)

  /** The severity band of a flagged foreign-object coverage. */
  function CoverageSeverity(coverage: real): (s: Severity)
    ensures s == HighSeverity <==> coverage > 5.0
    ensures s == MediumSeverity <==> 2.0 < coverage <= 5.0
    ensures s == LowSeverity <==> coverage <= 2.0
  {
    if coverage > 5.0 then HighSeverity
    else if coverage > 2.0 then MediumSeverity
    else LowSeverity
  }

  /** The main analysis feeds the assessment unless it carries a truthy 'error'. */
  predicate MainUsable(main: Option<Value>)
  {
    main.Some? && !TruthyOr(main.value, ErrorKey, false) && Has(main.value, ScoreKey)
  }

  /**
   * The final assessment: the verdict, the main score as confidence, the
   * primary issues, and a severity from the flagged coverage, with MEDIUM
   * for a failed image that has none. A score that does not compare raises.
   */
  function FinalAssessment(overallPass: bool, main: Option<Value>, foreign: Result<EFO.Combined>)
    : Result<Assessment>
  {
    match MainPart(main)
    case Err(e) => Err(e)
    case Ok(p) =>
      var flagged := ForeignFlagged(foreign);
      var severity := if flagged then CoverageSeverity(foreign.value.areaPct) else NoSeverity;
      var issues := if flagged then p.1 + [Interference(severity, foreign.value.areaPct)] else p.1;
      var severity' := if severity == NoSeverity && !overallPass then MediumSeverity else severity;
      Ok(Assessment(if overallPass then Pass else Fail, p.0, issues, severity'))
  }

  /** The confidence score and the issue the main analysis contributes. */
  function MainPart(main: Option<Value>): Result<(Value, seq<Issue>)>
  {
    if !MainUsable(main) then Ok((Num(0.0), []))
    else
      var score := Lookup(main.value, ScoreKey).value;
      match Below(score, 0.5)
      case None => Err(TypeErrorMessage)
      case Some(poor) => Ok((score, if poor then [PoorOverallQuality] else []))
  }

  /** The assessment built step by step, as the source fills its dict. */
  method GenerateFinalAssessment(overallPass: bool, main: Option<Value>, foreign: Result<EFO.Combined>)
    returns (r: Result<Assessment>)
    ensures r == FinalAssessment(overallPass, main, foreign)
  {
    var quality := if overallPass then Pass else Fail;
    var confidence := Num(0.0);
    var issues: seq<Issue> := [];
    var severity := NoSeverity;
    if MainUsable(main) {
      var score := Lookup(main.value, ScoreKey).value;
      confidence := score;
      var poor := Below(score, 0.5);
      if poor.None? {
        return Err(TypeErrorMessage);
      }
      if poor.value {
        issues := issues + [PoorOverallQuality];
        assert issues == [PoorOverallQuality];
      }
    }
    assert MainPart(main) == Ok((confidence, issues));
    if ForeignFlagged(foreign) {
      var coverage := foreign.value.areaPct;
      severity := CoverageSeverity(coverage);
      issues := issues + [Interference(severity, coverage)];
    }
    if severity == NoSeverity && !overallPass {
      severity := MediumSeverity;
    }
    r := Ok(Assessment(quality, confidence, issues, severity));
  }

  /**
   * What the assessment promises: PASS iff the image passed; a flagged image
   * takes the band of its coverage; an unflagged image that failed is
   * MEDIUM; an unflagged image that passed has no severity.
   */
  lemma AssessmentFacts(overallPass: bool, main: Option<Value>, foreign: Result<EFO.Combined>)
    requires FinalAssessment(overallPass, main, foreign).Ok?
    ensures var a := FinalAssessment(overallPass, main, foreign).value;
      && (a.overallQuality == Pass <==> overallPass)
      && (ForeignFlagged(foreign) ==> a.severity == CoverageSeverity(foreign.value.areaPct))
      && (!ForeignFlagged(foreign) && !overallPass ==> a.severity == MediumSeverity)
      && (!ForeignFlagged(foreign) && overallPass ==> a.severity == NoSeverity)
      && (a.severity == NoSeverity <==> !ForeignFlagged(foreign) && overallPass)
  {
  }

  /** The result of one comprehensive analysis. */
  datatype ComprehensiveResult = ComprehensiveResult(
    imagePath: string,
    overallPass: bool,
    failureReasons: seq<FailureReason>,
    main: Option<Value>,
    foreign: Result<EFO.Combined>,
    assessment: Assessment)

  /**
   * One image: a load failure raises; otherwise the main stage and the
   * detector each may fail the image and add reasons, and the assessment
   * summarises them.
   */
  function Comprehensive(cfg: EFO.DetectorConfig, path: string, scene: Option<EFO.Scene>, run: Option<Result<Value>>)
    : Result<ComprehensiveResult>
  {
    match scene
    case None => Err(LoadErrorPrefix + path)
    case Some(s) => Assemble(path, run, EFO.ForeignObjectAnalysis(cfg, s))
  }

  /** A loaded image's result, from the analyzer's outcome and the detector's. */
  function Assemble(path: string, run: Option<Result<Value>>, foreign: Result<EFO.Combined>)
    : Result<ComprehensiveResult>
  {
    var (main, mainFailed) := MainStage(run);
    var flagged := ForeignFlagged(foreign);
    var pass := !mainFailed && !flagged;
    var reasons := (if mainFailed then [StandardChecksFailed] else [])
      + (if flagged then ForeignReasons(foreign.value.reasons) else []);
    match FinalAssessment(pass, main, foreign)
    case Err(e) => Err(e)
    case Ok(a) => Ok(ComprehensiveResult(path, pass, reasons, main, foreign, a))
  }

  /** The comprehensive analysis, filling its result as the source does. */
  method AnalyzeImageComprehensive(cfg: EFO.DetectorConfig, path: string, scene: Option<EFO.Scene>,
                                   run: Option<Result<Value>>)
    returns (r: Result<ComprehensiveResult>)
    ensures r == Comprehensive(cfg, path, scene, run)
  {
    if scene.None? {
      return Err(LoadErrorPrefix + path);
    }
    var overallPass, reasons, main := RunMainStage(run);
    var foreign := EFO.AnalyzeForeignObjects(cfg, scene.value);
    r := FinishAnalysis(path, run, overallPass, reasons, main, foreign);
  }

  /** The main stage's effect on the verdict and the reasons. */
  method RunMainStage(run: Option<Result<Value>>)
    returns (overallPass: bool, reasons: seq<FailureReason>, main: Option<Value>)
    ensures main == MainStage(run).0
    ensures overallPass == !MainStage(run).1
    ensures reasons == if MainStage(run).1 then [StandardChecksFailed] else []
  {
    overallPass := true;
    reasons := [];
    var failed;
    main, failed := MainStage(run).0, MainStage(run).1;
    if failed {
      overallPass := false;
      reasons := reasons + [StandardChecksFailed];
    }
  }

  /** The detector's effect on the verdict and the reasons, then the assessment. */
  method FinishAnalysis(path: string, run: Option<Result<Value>>, overallPass: bool, reasons: seq<FailureReason>,
                        main: Option<Value>, foreign: Result<EFO.Combined>)
    returns (r: Result<ComprehensiveResult>)
    requires main == MainStage(run).0
    requires overallPass == !MainStage(run).1
    requires reasons == if MainStage(run).1 then [StandardChecksFailed] else []
    ensures r == Assemble(path, run, foreign)
  {
    var pass := overallPass;
    var rs := reasons;
    if foreign.Ok? && foreign.value.flag {
      pass := false;
      rs := rs + ForeignReasons(foreign.value.reasons);
    }
    assert rs == reasons + (if ForeignFlagged(foreign) then ForeignReasons(foreign.value.reasons) else []);
    var assessment := GenerateFinalAssessment(pass, main, foreign);
    match assessment
    case Err(e) =>
      r := Err(e);
    case Ok(a) =>
      r := Ok(ComprehensiveResult(path, pass, rs, main, foreign, a));
  }

  /** The main stage never leaves a score behind that the assessment cannot compare. */
  lemma MainStageComparable(run: Option<Result<Value>>)
    ensures var main := MainStage(run).0;
      MainUsable(main) ==> Below(Lookup(main.value, ScoreKey).value, 0.5).Some?
  {
    match run
    case None =>
    case Some(Err(e)) =>
      ErrorRecordHasNoScore(e);
    case Some(Ok(v)) =>
      ErrorRecordHasNoScore(TypeErrorMessage);
  }

  /**
   * A loaded image always yields a result; it fails iff the main score is
   * below 0.7 or the detector raised its flag, and the reasons say which.
   */
  lemma ComprehensiveVerdict(cfg: EFO.DetectorConfig, path: string, scene: Option<EFO.Scene>, run: Option<Result<Value>>)
    ensures Comprehensive(cfg, path, scene, run).Err? <==> scene.None?
    ensures scene.Some? ==>
      var r := Comprehensive(cfg, path, scene, run).value;
      var foreign := EFO.ForeignObjectAnalysis(cfg, scene.value);
      && r.foreign == foreign
      && (r.overallPass <==> !MainFails(run) && !ForeignFlagged(foreign))
      && r.failureReasons == (if MainFails(run) then [StandardChecksFailed] else [])
        + (if ForeignFlagged(foreign) then ForeignReasons(foreign.value.reasons) else [])
  {
    MainStageComparable(run);
    if scene.Some? {
      assert MainStage(run).1 <==> MainFails(run);
    }
  }

  /** Without the analyzer an image fails iff the detector raised its flag. */
  lemma StandaloneVerdict(cfg: EFO.DetectorConfig, path: string, s: EFO.Scene)
    ensures var r := Comprehensive(cfg, path, Some(s), None);
      r.Ok? && (r.value.overallPass <==> !ForeignFlagged(EFO.ForeignObjectAnalysis(cfg, s)))
      && r.value.main.None?
  {
    ComprehensiveVerdict(cfg, path, Some(s), None);
  }

  /** In a result the severity is NONE iff the image passed, and PASS iff it passed. */
  lemma ResultSeverity(cfg: EFO.DetectorConfig, path: string, s: EFO.Scene, run: Option<Result<Value>>)
    ensures var r := Comprehensive(cfg, path, Some(s), run).value;
      && (r.assessment.overallQuality == Pass <==> r.overallPass)
      && (r.assessment.severity == NoSeverity <==> r.overallPass)
  {
    ComprehensiveVerdict(cfg, path, Some(s), run);
    var (main, mainFailed) := MainStage(run);
    var foreign := EFO.ForeignObjectAnalysis(cfg, s);
    var pass := !mainFailed && !ForeignFlagged(foreign);
    AssessmentFacts(pass, main, foreign);
  }

  /**
   * An image whose document mask is empty: the detector's KeyError is caught
   * and stored, so only the main stage can fail the image.
   */
  lemma EmptyMaskKeepsVerdict(cfg: EFO.DetectorConfig, path: string, s: EFO.Scene, run: Option<Result<Value>>)
    requires s.width * s.height != 0 && s.docPixels == []
    ensures var r := Comprehensive(cfg, path, Some(s), run);
      && r.Ok? && r.value.foreign == Err(EFO.ShadowPercentageKey)
      && (r.value.overallPass <==> !MainFails(run))
      && r.value.failureReasons == if MainFails(run) then [StandardChecksFailed] else []
  {
    ComprehensiveVerdict(cfg, path, Some(s), run);
  }

  // ---------------------------------------------------------------------------
  // The batch

  /**
   * One image of a batch: its path, the loaded scene (None when it does not
   * load), the analyzer's outcome, and the error raised while saving its
   * JSON file, if any.
   */
  datatype ImageRun = ImageRun(
    path: string,
    scene: Option<EFO.Scene>,
    main: Option<Result<Value>>,
    saveError: Option<string>)

  datatype BatchEntry =
    | Analyzed(result: ComprehensiveResult)
    | Errored(imagePath: string, error: string)

  datatype BatchState = BatchState(
    processed: nat,
    passed: nat,
    failed: nat,
    failedForeign: nat,
    entries: seq<BatchEntry>,
    failedImages: seq<ComprehensiveResult>)

  const EmptyBatch := BatchState(0, 0, 0, 0, [], [])

  function Analysis(cfg: EFO.DetectorConfig, run: ImageRun): Result<ComprehensiveResult>
  {
    Comprehensive(cfg, run.path, run.scene, run.main)
  }

  /**
   * One iteration: an analysis that raises adds an error entry; otherwise
   * the result is recorded and counted, and a failed save then adds an
   * error entry after it.
   */
  function Step(st: BatchState, run: ImageRun, outcome: Result<ComprehensiveResult>): BatchState
  {
    match outcome
    case Err(e) => st.(entries := st.entries + [Errored(run.path, e)])
    case Ok(res) =>
      var counted :=
        if res.overallPass then
          st.(entries := st.entries + [Analyzed(res)], processed := st.processed + 1, passed := st.passed + 1)
        else
          st.(entries := st.entries + [Analyzed(res)], processed := st.processed + 1, failed := st.failed + 1,
              failedImages := st.failedImages + [res],
              failedForeign := st.failedForeign + (if ForeignFlagged(res.foreign) then 1 else 0));
      match run.saveError
      case None => counted
      case Some(e) => counted.(entries := counted.entries + [Errored(run.path, e)])
  }

  /**
   * In a batch, an empty-mask image that the main stage does not fail is
   * counted as passed, and never as a foreign-object failure.
   */
  lemma EmptyMaskImagePasses(cfg: EFO.DetectorConfig, st: BatchState, run: ImageRun)
    requires run.scene.Some? && run.scene.value.width * run.scene.value.height != 0
    requires run.scene.value.docPixels == [] && !MainFails(run.main)
    ensures var st' := Step(st, run, Analysis(cfg, run));
      && st'.processed == st.processed + 1 && st'.passed == st.passed + 1
      && st'.failed == st.failed && st'.failedForeign == st.failedForeign
  {
    EmptyMaskKeepsVerdict(cfg, run.path, run.scene.value, run.main);
  }

  /** The per-image analysis as a function value, so the batch is stated over any analysis. */
  function Analyzer(cfg: EFO.DetectorConfig): ImageRun -> Result<ComprehensiveResult>
  {
    run => Analysis(cfg, run)
  }

  /** The batch state after the loop has run over `runs`. */
  function BatchRun(analyze: ImageRun -> Result<ComprehensiveResult>, runs: seq<ImageRun>): BatchState
  {
    if runs == [] then EmptyBatch
    else
      var last := runs[|runs| - 1];
      Step(BatchRun(analyze, runs[..|runs| - 1]), last, analyze(last))
  }

  function AnalysisErrors(analyze: ImageRun -> Result<ComprehensiveResult>, runs: seq<ImageRun>): (n: nat)
    ensures n <= |runs|
  {
    if runs == [] then 0
    else AnalysisErrors(analyze, runs[..|runs| - 1]) + (if analyze(runs[|runs| - 1]).Err? then 1 else 0)
  }

  function SaveErrors(analyze: ImageRun -> Result<ComprehensiveResult>, runs: seq<ImageRun>): (n: nat)
    ensures n <= |runs|
  {
    if runs == [] then 0
    else
      var last := runs[|runs| - 1];
      SaveErrors(analyze, runs[..|runs| - 1]) + (if analyze(last).Ok? && last.saveError.Some? then 1 else 0)
  }

  /** The counter relations the loop keeps. */
  predicate CountsHold(st: BatchState)
  {
    && st.passed + st.failed == st.processed
    && st.failedForeign <= st.failed
    && |st.failedImages| == st.failed
    && (forall k :: 0 <= k < |st.failedImages| ==> !st.failedImages[k].overallPass)
  }

  /** One iteration keeps the relations, counts a processed image iff its analysis returned, and adds one or two entries. */
  lemma StepKeepsCounts(st: BatchState, run: ImageRun, outcome: Result<ComprehensiveResult>)
    requires CountsHold(st)
    ensures CountsHold(Step(st, run, outcome))
  {
    if outcome.Ok? && !outcome.value.overallPass {
      var failed' := st.failedImages + [outcome.value];
      assert forall k :: 0 <= k < |st.failedImages| ==> failed'[k] == st.failedImages[k];
    }
  }

  /**
   * The batch counters: passed + failed = processed; failed_foreign_objects
   * is at most failed; the failed list holds exactly the failed results.
   */
  lemma {:induction false} BatchCounters(analyze: ImageRun -> Result<ComprehensiveResult>, runs: seq<ImageRun>)
    ensures CountsHold(BatchRun(analyze, runs))
  {
    if runs != [] {
      var n := |runs| - 1;
      BatchCounters(analyze, runs[..n]);
      StepKeepsCounts(BatchRun(analyze, runs[..n]), runs[n], analyze(runs[n]));
    }
  }

  /** Processed images plus those whose analysis raised make up the whole batch. */
  lemma {:induction false} BatchProcessed(analyze: ImageRun -> Result<ComprehensiveResult>, runs: seq<ImageRun>)
    ensures BatchRun(analyze, runs).processed + AnalysisErrors(analyze, runs) == |runs|
  {
    if runs != [] {
      var n := |runs| - 1;
      BatchProcessed(analyze, runs[..n]);
    }
  }

  /** Every image leaves one entry, and one more when its result could not be saved. */
  lemma {:induction false} BatchEntries(analyze: ImageRun -> Result<ComprehensiveResult>, runs: seq<ImageRun>)
    ensures |BatchRun(analyze, runs).entries| == |runs| + SaveErrors(analyze, runs)
  {
    if runs != [] {
      var n := |runs| - 1;
      BatchEntries(analyze, runs[..n]);
    }
  }

  datatype FailureTypes = FailureTypes(clips: nat, black: nat, shadows: nat, combined: nat, qualityIssues: nat)

  /** What one failed image adds to the failure tally. */
  function Tally(ft: FailureTypes, res: ComprehensiveResult): FailureTypes
  {
    var flagged := ForeignFlagged(res.foreign);
    var clip := flagged && res.foreign.value.clip.flag;
    var black := flagged && res.foreign.value.black.flag;
    var shadow := flagged && EFO.ShadowFlag(res.foreign.value.shadow);
    FailureTypes(
      ft.clips + (if clip then 1 else 0),
      ft.black + (if black then 1 else 0),
      ft.shadows + (if shadow then 1 else 0),
      ft.combined + (if clip && black then 1 else 0),
      ft.qualityIssues + (if res.main.Some? then 1 else 0))
  }

  function FailureTypesOf(failed: seq<ComprehensiveResult>): FailureTypes
  {
    if failed == [] then FailureTypes(0, 0, 0, 0, 0)
    else Tally(FailureTypesOf(failed[..|failed| - 1]), failed[|failed| - 1])
  }

  method AnalyzeBatchFailures(failed: seq<ComprehensiveResult>) returns (ft: FailureTypes)
    ensures ft == FailureTypesOf(failed)
  {
    var clips, black, shadows, combined, quality := 0, 0, 0, 0, 0;
    var i := 0;
    while i < |failed|
      invariant 0 <= i <= |failed|
      invariant FailureTypes(clips, black, shadows, combined, quality) == FailureTypesOf(failed[..i])
    {
      var res := failed[i];
      assert failed[..i + 1][..i] == failed[..i];
      if ForeignFlagged(res.foreign) {
        var c := res.foreign.value;
        if c.clip.flag {
          clips := clips + 1;
        }
        if c.black.flag {
          black := black + 1;
        }
        if EFO.ShadowFlag(c.shadow) {
          shadows := shadows + 1;
        }
        if c.clip.flag && c.black.flag {
          combined := combined + 1;
        }
      }
      if res.main.Some? {
        quality := quality + 1;
      }
      i := i + 1;
    }
    assert failed[..|failed|] == failed;
    ft := FailureTypes(clips, black, shadows, combined, quality);
  }

  /** Every count is at most the number of failures, and combined is at most clips and black. */
  lemma {:induction false} FailureTypeBounds(failed: seq<ComprehensiveResult>)
    ensures var ft := FailureTypesOf(failed);
      && ft.combined <= ft.clips && ft.combined <= ft.black
      && ft.clips <= |failed| && ft.black <= |failed| && ft.shadows <= |failed|
      && ft.qualityIssues <= |failed|
  {
    if failed != [] {
      FailureTypeBounds(failed[..|failed| - 1]);
    }
  }

  function ForeignFailures(failed: seq<ComprehensiveResult>): (n: nat)
    ensures n <= |failed|
  {
    if failed == [] then 0
    else ForeignFailures(failed[..|failed| - 1]) + (if ForeignFlagged(failed[|failed| - 1].foreign) then 1 else 0)
  }

  const AllPassedLine := "\U{2705} All images passed quality checks"
  const HighRateLine1 := "\U{1F534} CRITICAL: High foreign object failure rate detected"
  const HighRateLine2 := "\U{1F4CE} Review document capture setup to minimize clips/tools in frame"
  const HighRateLine3 := "\U{1F44B} Train operators to keep hands away from document during capture"
  const HighRateLine4 := "\U{1F4A1} Improve lighting setup to reduce shadows and reflections"
  const AnyForeignLine1 := "\U{1F4CB} Implement pre-capture checklist for foreign object removal"
  const AnyForeignLine2 := "\U{1F3AF} Consider automated document area detection to focus analysis"
  const AnyForeignLine3 := "\U{2699}\U{FE0F} Adjust foreign object detection sensitivity if needed"

  const HighRateLines := [HighRateLine1, HighRateLine2, HighRateLine3, HighRateLine4]
  const AnyForeignLines := [AnyForeignLine1, AnyForeignLine2, AnyForeignLine3]

  function BatchRecommendations(failed: seq<ComprehensiveResult>): seq<string>
  {
    if failed == [] then [AllPassedLine]
    else
      var ff := ForeignFailures(failed);
      (if ff as real > |failed| as real * 0.5 then HighRateLines else [])
      + (if ff > 0 then AnyForeignLines else [])
  }

  /**
   * No failures give the single all-passed line. Otherwise there are no
   * lines when no failure is a foreign-object one, all seven when more than
   * half are, and the three generic ones in between.
   */
  lemma BatchRecommendationShape(failed: seq<ComprehensiveResult>)
    ensures failed == [] ==> BatchRecommendations(failed) == [AllPassedLine]
    ensures failed != [] ==>
      var ff := ForeignFailures(failed);
      var r := BatchRecommendations(failed);
      && (|r| == 0 <==> ff == 0)
      && (|r| == 3 <==> 0 < ff && 2 * ff <= |failed|)
      && (|r| == 7 <==> 2 * ff > |failed|)
      && (|r| == 7 ==> r[..4] == HighRateLines)
      && (|r| >= 3 ==> r[|r| - 3..] == AnyForeignLines)
  {
  }

  datatype BatchResults = BatchResults(
    totalImages: nat,
    state: BatchState,
    failureAnalysis: FailureTypes,
    recommendations: seq<string>)

  function BatchOf(cfg: EFO.DetectorConfig, runs: seq<ImageRun>): BatchResults
  {
    var st := BatchRun(Analyzer(cfg), runs);
    BatchResults(|runs|, st, FailureTypesOf(st.failedImages), BatchRecommendations(st.failedImages))
  }

  /**
   * The two writes of the batch that no `try` guards: creating the output
   * directory before the loop and dumping the batch summary after it. Each
   * is the message it raises, or None when it succeeds.
   */
  datatype BatchWrites = BatchWrites(makeDirsError: Option<string>, summaryDumpError: Option<string>)

  /**
   * The batch loop: analyse, count, record, save; then tally and recommend.
   * A failing directory creation raises before any image is read; a failing
   * summary dump raises after the loop, and the results are not returned.
   */
  method BatchAnalyzeWithForeignObjects(cfg: EFO.DetectorConfig, writes: BatchWrites, runs: seq<ImageRun>)
    returns (r: Result<BatchResults>)
    ensures r.Err? <==> writes.makeDirsError.Some? || writes.summaryDumpError.Some?
    ensures writes.makeDirsError.Some? ==> r == Err(writes.makeDirsError.value)
    ensures writes.makeDirsError.None? && writes.summaryDumpError.Some? ==> r == Err(writes.summaryDumpError.value)
    ensures r.Ok? ==> r.value == BatchOf(cfg, runs)
  {
    if writes.makeDirsError.Some? {
      return Err(writes.makeDirsError.value);
    }
    var processed, passed, failed, failedForeign := 0, 0, 0, 0;
    var entries: seq<BatchEntry> := [];
    var failedImages: seq<ComprehensiveResult> := [];
    var i := 0;
    while i < |runs|
      invariant 0 <= i <= |runs|
      invariant BatchState(processed, passed, failed, failedForeign, entries, failedImages)
        == BatchRun(Analyzer(cfg), runs[..i])
    {
      assert runs[..i + 1][..i] == runs[..i];
      assert Analyzer(cfg)(runs[i]) == Analysis(cfg, runs[i]);
      processed, passed, failed, failedForeign, entries, failedImages :=
        ProcessImage(cfg, runs[i], processed, passed, failed, failedForeign, entries, failedImages);
      i := i + 1;
    }
    assert runs[..|runs|] == runs;
    var ft := AnalyzeBatchFailures(failedImages);
    var results := BatchResults(|runs|, BatchState(processed, passed, failed, failedForeign, entries, failedImages),
                                ft, BatchRecommendations(failedImages));
    if writes.summaryDumpError.Some? {
      return Err(writes.summaryDumpError.value);
    }
    r := Ok(results);
  }

  /** One iteration of the batch loop, updating the counters and lists. */
  method ProcessImage(cfg: EFO.DetectorConfig, run: ImageRun, processed: nat, passed: nat, failed: nat,
                      failedForeign: nat, entries: seq<BatchEntry>, failedImages: seq<ComprehensiveResult>)
    returns (processed': nat, passed': nat, failed': nat, failedForeign': nat,
             entries': seq<BatchEntry>, failedImages': seq<ComprehensiveResult>)
    ensures BatchState(processed', passed', failed', failedForeign', entries', failedImages')
      == Step(BatchState(processed, passed, failed, failedForeign, entries, failedImages), run, Analysis(cfg, run))
  {
    var outcome := AnalyzeImageComprehensive(cfg, run.path, run.scene, run.main);
    processed', passed', failed', failedForeign', entries', failedImages' :=
      RecordOutcome(run, outcome, processed, passed, failed, failedForeign, entries, failedImages);
  }

  /** Counting and recording one image's outcome, as the loop body does after the analysis. */
  method RecordOutcome(run: ImageRun, outcome: Result<ComprehensiveResult>, processed: nat, passed: nat,
                       failed: nat, failedForeign: nat, entries: seq<BatchEntry>,
                       failedImages: seq<ComprehensiveResult>)
    returns (processed': nat, passed': nat, failed': nat, failedForeign': nat,
             entries': seq<BatchEntry>, failedImages': seq<ComprehensiveResult>)
    ensures BatchState(processed', passed', failed', failedForeign', entries', failedImages')
      == Step(BatchState(processed, passed, failed, failedForeign, entries, failedImages), run, outcome)
  {
    processed', passed', failed', failedForeign', entries', failedImages' :=
      processed, passed, failed, failedForeign, entries, failedImages;
    match outcome {
      case Err(e) =>
        entries' := entries' + [Errored(run.path, e)];
      case Ok(res) =>
        entries' := entries' + [Analyzed(res)];
        processed' := processed' + 1;
        if res.overallPass {
          passed' := passed' + 1;
        } else {
          failed' := failed' + 1;
          failedImages' := failedImages' + [res];
          if ForeignFlagged(res.foreign) {
            failedForeign' := failedForeign' + 1;
          }
        }
        if run.saveError.Some? {
          entries' := entries' + [Errored(run.path, run.saveError.value)];
        }
    }
  }
}
