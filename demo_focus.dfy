/**
 * The focus demo workflow: it summarizes a list of analyzer results by focus
 * level, counts the images that failed for focus, rates the batch, and picks out
 * the out-of-focus results. A result is the report dict of one image; each image
 * is read through its `focus_analysis` section.
 */
module DemoFocus {
  import opened Values
  import Stats
  import CustomFocus

  const FocusAnalysisKey := "focus_analysis"
  const FocusLevelKey := "focus_level"
  const FocusScoreKey := "focus_score"
  const UnknownLevel := "unknown"

  /** What Python raises for `.get` on a value that is not a dict. */
  const AttributeErrorMessage := "AttributeError: object has no attribute 'get'"
  /** What Python raises for `x in dict` when `x` is a list or a dict. */
  const UnhashableMessage := "TypeError: unhashable type"
  /** What `sum` raises for a score that is not a number. */
  const SumTypeErrorMessage := "TypeError: unsupported operand type(s) for +"

  // ---------------------------------------------------------------------------
  // Reading one result

  /** The two entries the workflow reads from `result['focus_analysis']`. */
  datatype Reading = Reading(level: Value, score: Value)

  /**
   * `fa = result.get('focus_analysis', {})`, then `fa.get('focus_level', 'unknown')`
   * and `fa.get('focus_score', 0.0)`; a result or a section that is not a dict
   * has no `.get`.
   */
  function ReadingOf(result: Value): (r: Result<Reading>)
    ensures r.Err? <==> (!result.Obj? || !GetOr(result, FocusAnalysisKey, Obj([])).Obj?)
    ensures r.Ok? && Lookup(result, FocusAnalysisKey) == None ==>
              r.value == Reading(Str(UnknownLevel), Num(0.0))
  {
    if !result.Obj? then Err(AttributeErrorMessage)
    else
      var fa := GetOr(result, FocusAnalysisKey, Obj([]));
      if !fa.Obj? then Err(AttributeErrorMessage)
      else Ok(Reading(GetOr(fa, FocusLevelKey, Str(UnknownLevel)), GetOr(fa, FocusScoreKey, Num(0.0))))
  }

  /** `focus_level in ['poor', 'unusable']`: list membership compares by equality. */
  predicate Failing(level: Value)
  {
    level == Str(CustomFocus.LevelName(CustomFocus.Poor)) || level == Str(CustomFocus.LevelName(CustomFocus.Unusable))
  }

  /** A list or a dict cannot be looked up among the keys of a dict. */
  predicate Unhashable(v: Value)
  {
    v.Arr? || v.Obj?
  }

  /** One result as the summary loop reads it, including the key lookup's TypeError. */
  function SummaryReadingOf(result: Value): (r: Result<Reading>)
    ensures r.Ok? <==> (ReadingOf(result).Ok? && !Unhashable(ReadingOf(result).value.level))
    ensures r.Ok? ==> r == ReadingOf(result)
  {
    match ReadingOf(result)
    case Err(m) => Err(m)
    case Ok(rd) => if Unhashable(rd.level) then Err(UnhashableMessage) else Ok(rd)
  }

  /** The readings of the results, in order, or the first failure. */
  function SummaryReadings(results: seq<Value>): Result<seq<Reading>>
  {
    if results == [] then Ok([])
    else
      match SummaryReadings(results[..|results| - 1])
      case Err(m) => Err(m)
      case Ok(rs) =>
        match SummaryReadingOf(results[|results| - 1])
        case Err(m) => Err(m)
        case Ok(rd) => Ok(rs + [rd])
  }

  lemma {:induction false} SummaryReadingsLength(results: seq<Value>)
    requires SummaryReadings(results).Ok?
    ensures |SummaryReadings(results).value| == |results|
  {
    if results != [] {
      SummaryReadingsLength(results[..|results| - 1]);
    }
  }

  // ---------------------------------------------------------------------------
  // The summary

  /** `focus_distribution`: one counter per focus level. */
  datatype Distribution = Distribution(excellent: nat, good: nat, acceptable: nat, poor: nat, unusable: nat)

  const EmptyDistribution := Distribution(0, 0, 0, 0, 0)

  function Total(d: Distribution): nat
  {
    d.excellent + d.good + d.acceptable + d.poor + d.unusable
  }

  /** `if focus_level in focus_distribution: focus_distribution[focus_level] += 1`. */
  function Count(d: Distribution, level: Value): Distribution
  {
    if level == Str(CustomFocus.LevelName(CustomFocus.Excellent)) then d.(excellent := d.excellent + 1)
    else if level == Str(CustomFocus.LevelName(CustomFocus.Good)) then d.(good := d.good + 1)
    else if level == Str(CustomFocus.LevelName(CustomFocus.Acceptable)) then d.(acceptable := d.acceptable + 1)
    else if level == Str(CustomFocus.LevelName(CustomFocus.Poor)) then d.(poor := d.poor + 1)
    else if level == Str(CustomFocus.LevelName(CustomFocus.Unusable)) then d.(unusable := d.unusable + 1)
    else d
  }

  /** Counting a level adds one to the distribution exactly when the level is named. */
  lemma CountTotal(d: Distribution, level: Value)
    ensures Total(Count(d, level)) == Total(d) + (if Named(level) then 1 else 0)
  {
  }

  /** Counting a level adds one to poor or unusable exactly when it fails for focus. */
  lemma CountFailing(d: Distribution, level: Value)
    ensures Count(d, level).poor + Count(d, level).unusable
      == d.poor + d.unusable + (if Failing(level) then 1 else 0)
  {
  }

  /** The level is one of the five keys of `focus_distribution`. */
  predicate Named(level: Value)
  {
    level.Str? && level.s in CustomFocus.LevelNames
  }

  /** The distribution over the readings. */
  function Tally(rs: seq<Reading>): Distribution
  {
    if rs == [] then EmptyDistribution else Count(Tally(rs[..|rs| - 1]), rs[|rs| - 1].level)
  }

  /** `failed_for_focus`: the readings whose level is poor or unusable. */
  function FailedCount(rs: seq<Reading>): nat
  {
    if rs == [] then 0
    else FailedCount(rs[..|rs| - 1]) + (if Failing(rs[|rs| - 1].level) then 1 else 0)
  }

  /** A reading counts for the distribution when its level is one of the five names. */
  function NamedCount(rs: seq<Reading>): nat
  {
    if rs == [] then 0
    else NamedCount(rs[..|rs| - 1]) + (if Named(rs[|rs| - 1].level) then 1 else 0)
  }

  lemma {:induction false} NamedAtMostAll(rs: seq<Reading>)
    ensures NamedCount(rs) <= |rs|
  {
    if rs != [] { NamedAtMostAll(rs[..|rs| - 1]); }
  }

  /** The distribution counts exactly the readings with a named level. */
  lemma {:induction false} TallyTotal(rs: seq<Reading>)
    ensures Total(Tally(rs)) == NamedCount(rs)
  {
    if rs != [] {
      TallyTotal(rs[..|rs| - 1]);
      CountTotal(Tally(rs[..|rs| - 1]), rs[|rs| - 1].level);
    }
  }

  /** Failing for focus is being counted as poor or unusable. */
  lemma {:induction false} FailedIsPoorPlusUnusable(rs: seq<Reading>)
    ensures FailedCount(rs) == Tally(rs).poor + Tally(rs).unusable
  {
    if rs != [] {
      FailedIsPoorPlusUnusable(rs[..|rs| - 1]);
      CountFailing(Tally(rs[..|rs| - 1]), rs[|rs| - 1].level);
    }
  }

  /** The scores of the readings, in order (`focus_scores`). */
  function Scores(rs: seq<Reading>): (r: seq<Value>)
    ensures |r| == |rs|
  {
    if rs == [] then [] else Scores(rs[..|rs| - 1]) + [rs[|rs| - 1].score]
  }

  /** A score as `sum` adds it: a number, or a bool read as 0 or 1. */
  function ScoreNumber(v: Value): Option<real>
  {
    match v
    case Num(n) => Some(n)
    case Bool(b) => Some(if b then 1.0 else 0.0)
    case _ => None
  }

  /** `sum(scores)`, or None when some score is not a number (the TypeError). */
  function SumScores(scores: seq<Value>): (r: Option<real>)
    ensures r.Some? <==> (forall k :: 0 <= k < |scores| ==> ScoreNumber(scores[k]).Some?)
  {
    if scores == [] then Some(0.0)
    else
      match (SumScores(scores[..|scores| - 1]), ScoreNumber(scores[|scores| - 1]))
      case (Some(a), Some(b)) => Some(a + b)
      case _ => None
  }

  /** `sum(scores)` is the sum of the scores as numbers. */
  lemma {:induction false} SumScoresIsSum(scores: seq<Value>)
    requires SumScores(scores).Some?
    ensures SumScores(scores).value == Sum(seq(|scores|, k requires 0 <= k < |scores| => ScoreNumber(scores[k]).value))
  {
    var xs := seq(|scores|, k requires 0 <= k < |scores| => ScoreNumber(scores[k]).value);
    if scores != [] {
      var pre := scores[..|scores| - 1];
      SumScoresIsSum(pre);
      assert xs[..|xs| - 1] == seq(|pre|, k requires 0 <= k < |pre| => ScoreNumber(pre[k]).value);
    }
  }

  /** The dict the summary returns. */
  datatype Summary = Summary(
    totalImages: nat,
    distribution: Distribution,
    failedForFocus: nat,
    successRate: real,
    averageFocusScore: real)

  /** The share of images that did not fail for focus, in percent; 0 for no images. */
  function SuccessRate(total: nat, failed: nat): (r: real)
    requires failed <= total
    ensures 0.0 <= r <= 100.0
    ensures total == 0 ==> r == 0.0
    ensures total > 0 ==> r * (total as real) == ((total - failed) as real) * 100.0
  {
    if total > 0 then ((total - failed) as real) / (total as real) * 100.0 else 0.0
  }

  lemma {:induction false} FailedAtMostAll(rs: seq<Reading>)
    ensures FailedCount(rs) <= |rs|
  {
    if rs != [] { FailedAtMostAll(rs[..|rs| - 1]); }
  }

  /** The summary of the readings, or the TypeError `sum` raises. */
  function Summarize(rs: seq<Reading>): (r: Result<Summary>)
    ensures r.Err? <==> SumScores(Scores(rs)).None?
    ensures r.Ok? ==> r.value.totalImages == |rs| && r.value.failedForFocus <= r.value.totalImages
  {
    match SumScores(Scores(rs))
    case None => Err(SumTypeErrorMessage)
    case Some(total) =>
      FailedAtMostAll(rs);
      Ok(Summary(
        |rs|,
        Tally(rs),
        FailedCount(rs),
        SuccessRate(|rs|, FailedCount(rs)),
        if rs == [] then 0.0 else total / (|rs| as real)))
  }

  /** `summarize_focus_results(results)`. */
  function SummaryOf(results: seq<Value>): Result<Summary>
  {
    match SummaryReadings(results)
    case Err(m) => Err(m)
    case Ok(rs) => Summarize(rs)
  }

  /**
   * What the summary promises: the distribution leaves out the unknown levels,
   * and failures are the poor and the unusable images.
   */
  lemma SummaryCounts(results: seq<Value>)
    requires SummaryOf(results).Ok?
    ensures var s := SummaryOf(results).value;
      && s.totalImages == |results|
      && Total(s.distribution) <= s.totalImages
      && s.failedForFocus == s.distribution.poor + s.distribution.unusable
  {
    var rs := SummaryReadings(results).value;
    assert SummaryOf(results) == Summarize(rs);
    SummaryReadingsLength(results);
    TallyTotal(rs);
    NamedAtMostAll(rs);
    FailedIsPoorPlusUnusable(rs);
  }

  /** The rates: the success rate of the counts, and a zero average for no images. */
  lemma SummaryRates(results: seq<Value>)
    requires SummaryOf(results).Ok?
    ensures var s := SummaryOf(results).value;
      && s.failedForFocus <= s.totalImages
      && s.successRate == SuccessRate(s.totalImages, s.failedForFocus)
      && (s.totalImages == 0 ==> s.averageFocusScore == 0.0)
  {
    var rs := SummaryReadings(results).value;
    assert SummaryOf(results) == Summarize(rs);
  }

  /** For a non-empty batch the average is the mean of the scores as numbers. */
  lemma SummaryAverage(results: seq<Value>)
    requires SummaryOf(results).Ok? && results != []
    ensures var rs := SummaryReadings(results).value;
      var scores := Scores(rs);
      SummaryOf(results).value.averageFocusScore
        == Stats.Mean(seq(|scores|, k requires 0 <= k < |scores| => ScoreNumber(scores[k]).value))
  {
    var rs := SummaryReadings(results).value;
    SummaryReadingsLength(results);
    SumScoresIsSum(Scores(rs));
  }

  /** The summary loop: counters updated result by result, then the rates. */
  method SummarizeFocusResults(results: seq<Value>) returns (r: Result<Summary>)
    ensures r == SummaryOf(results)
  {
    var distribution := EmptyDistribution;
    var failed := 0;
    var scores: seq<Value> := [];
    var rs: seq<Reading> := [];
    var i := 0;
    while i < |results|
      invariant 0 <= i <= |results|
      invariant SummaryReadings(results[..i]) == Ok(rs)
      invariant distribution == Tally(rs) && failed == FailedCount(rs) && scores == Scores(rs)
    {
      assert results[..i + 1][..i] == results[..i];
      var rd := SummaryReadingOf(results[i]);
      if rd.Err? {
        SummaryReadingsPrefix(results, i + 1);
        return Err(rd.message);
      }
      distribution := Count(distribution, rd.value.level);
      if Failing(rd.value.level) {
        failed := failed + 1;
      }
      scores := scores + [rd.value.score];
      rs := rs + [rd.value];
      i := i + 1;
    }
    assert results[..i] == results;
    r := Summarize(rs);
  }

  /** A failure in a prefix of the results is the failure of the whole batch. */
  lemma {:induction false} SummaryReadingsPrefix(results: seq<Value>, n: nat)
    requires n <= |results| && SummaryReadings(results[..n]).Err?
    ensures SummaryReadings(results) == SummaryReadings(results[..n])
  {
    if n < |results| {
      assert results[..|results| - 1][..n] == results[..n];
      SummaryReadingsPrefix(results[..|results| - 1], n);
    } else {
      assert results[..n] == results;
    }
  }

  // ---------------------------------------------------------------------------
  // The out-of-focus filter

  /** `filter_out_of_focus_images(results)`: the failing results, or the first AttributeError. */
  function OutOfFocus(results: seq<Value>): Result<seq<Value>>
  {
    if results == [] then Ok([])
    else
      match OutOfFocus(results[..|results| - 1])
      case Err(m) => Err(m)
      case Ok(kept) =>
        match ReadingOf(results[|results| - 1])
        case Err(m) => Err(m)
        case Ok(rd) => Ok(if Failing(rd.level) then kept + [results[|results| - 1]] else kept)
  }

  /** A result is out of focus when it reads and its level is poor or unusable. */
  predicate IsOutOfFocus(result: Value)
  {
    ReadingOf(result).Ok? && Failing(ReadingOf(result).value.level)
  }

  /** The positions of the out-of-focus results, in increasing order. */
  function FailingIndices(results: seq<Value>): (idx: seq<nat>)
    ensures forall j :: 0 <= j < |idx| ==> idx[j] < |results|
  {
    if results == [] then []
    else
      FailingIndices(results[..|results| - 1])
        + (if IsOutOfFocus(results[|results| - 1]) then [|results| - 1] else [])
  }

  lemma {:induction false} FailingIndicesExact(results: seq<Value>)
    ensures forall a, b :: 0 <= a < b < |FailingIndices(results)| ==>
              FailingIndices(results)[a] < FailingIndices(results)[b]
    ensures forall j :: 0 <= j < |FailingIndices(results)| ==> IsOutOfFocus(results[FailingIndices(results)[j]])
    ensures forall i :: 0 <= i < |results| && IsOutOfFocus(results[i]) ==> i in FailingIndices(results)
  {
    if results != [] {
      var pre := results[..|results| - 1];
      FailingIndicesExact(pre);
      assert forall k :: 0 <= k < |pre| ==> pre[k] == results[k];
    }
  }

  /** When the filter succeeds it returns the results at the failing positions. */
  lemma {:induction false} OutOfFocusKeeps(results: seq<Value>)
    requires OutOfFocus(results).Ok?
    ensures var kept := OutOfFocus(results).value;
      var idx := FailingIndices(results);
      |kept| == |idx| && forall j :: 0 <= j < |kept| ==> kept[j] == results[idx[j]]
  {
    if results != [] {
      var pre := results[..|results| - 1];
      OutOfFocusKeeps(pre);
      assert forall k :: 0 <= k < |pre| ==> pre[k] == results[k];
    }
  }

  /**
   * The filter keeps exactly the out-of-focus results, in their original order:
   * position j of the output is the result at the j-th failing position, and every
   * out-of-focus result is one of them.
   */
  lemma FilterKeepsExactlyTheFailing(results: seq<Value>)
    requires OutOfFocus(results).Ok?
    ensures var kept := OutOfFocus(results).value;
      exists idx: seq<nat> ::
        && |idx| == |kept|
        && (forall j :: 0 <= j < |idx| ==> idx[j] < |results| && kept[j] == results[idx[j]])
        && (forall a, b :: 0 <= a < b < |idx| ==> idx[a] < idx[b])
        && (forall j :: 0 <= j < |idx| ==> IsOutOfFocus(results[idx[j]]))
        && (forall i :: 0 <= i < |results| && IsOutOfFocus(results[i]) ==> i in idx)
  {
    OutOfFocusKeeps(results);
    FailingIndicesExact(results);
    var idx := FailingIndices(results);
    assert |idx| == |OutOfFocus(results).value|;
  }

  /** The filter and the summary agree: as many results are kept as failed for focus. */
  lemma {:induction false} FilterMatchesSummary(results: seq<Value>)
    requires SummaryReadings(results).Ok?
    ensures OutOfFocus(results).Ok?
    ensures |OutOfFocus(results).value| == FailedCount(SummaryReadings(results).value)
  {
    if results != [] {
      FilterMatchesSummary(results[..|results| - 1]);
    }
  }

  /** The filter loop: appends each failing result. */
  method FilterOutOfFocusImages(results: seq<Value>) returns (r: Result<seq<Value>>)
    ensures r == OutOfFocus(results)
  {
    var failedImages: seq<Value> := [];
    var i := 0;
    while i < |results|
      invariant 0 <= i <= |results|
      invariant OutOfFocus(results[..i]) == Ok(failedImages)
    {
      assert results[..i + 1][..i] == results[..i];
      var rd := ReadingOf(results[i]);
      if rd.Err? {
        OutOfFocusPrefix(results, i + 1);
        return Err(rd.message);
      }
      if Failing(rd.value.level) {
        failedImages := failedImages + [results[i]];
      }
      i := i + 1;
    }
    assert results[..i] == results;
    r := Ok(failedImages);
  }

  lemma {:induction false} OutOfFocusPrefix(results: seq<Value>, n: nat)
    requires n <= |results| && OutOfFocus(results[..n]).Err?
    ensures OutOfFocus(results) == OutOfFocus(results[..n])
  {
    if n < |results| {
      assert results[..|results| - 1][..n] == results[..n];
      OutOfFocusPrefix(results[..|results| - 1], n);
    } else {
      assert results[..n] == results;
    }
  }

  // ---------------------------------------------------------------------------
  // The simulated fixture

  /** One simulated result: the fields the workflow and its printout read. */
  function Simulated(name: string, overall: real, status: string, level: string, score: real, confidence: real): Value
  {
    Obj([
      ("image_path", Str(name)),
      ("filename", Str(name)),
      ("overall_score", Num(overall)),
      ("overall_status", Str(status)),
      (FocusAnalysisKey, Obj([
        (FocusLevelKey, Str(level)),
        (FocusScoreKey, Num(score)),
        ("confidence", Num(confidence))]))])
  }

  /** `create_simulated_results()`: a sharp, a blurry and a soft image. */
  const SimulatedResults: seq<Value> := [
    Simulated("simulated_sharp_image.jpg", 0.89, "pass", "good", 245.7, 0.92),
    Simulated("simulated_blurry_image.jpg", 0.42, "fail", "poor", 68.4, 0.87),
    Simulated("simulated_soft_image.jpg", 0.66, "warn", "acceptable", 138.2, 0.79)]

  /** Each simulated result reads as its focus level and score. */
  lemma SimulatedReading(name: string, overall: real, status: string, level: string, score: real, confidence: real)
    ensures SummaryReadingOf(Simulated(name, overall, status, level, score, confidence))
      == Ok(Reading(Str(level), Num(score)))
  {
    var fields := Simulated(name, overall, status, level, score, confidence).fields;
    assert |"image_path"| != |FocusAnalysisKey| && |"filename"| != |FocusAnalysisKey|;
    assert |"overall_score"| != |FocusAnalysisKey| && "overall_status"[0] != FocusAnalysisKey[0];
    GetIndex(fields, 4);
    var inner := fields[4].1.fields;
    assert FocusLevelKey[6] != FocusScoreKey[6];
    GetIndex(inner, 1);
  }

  /** Reading one more result extends the readings by its reading. */
  lemma SummaryReadingsSnoc(results: seq<Value>, x: Value, rs: seq<Reading>, rd: Reading)
    requires SummaryReadings(results) == Ok(rs) && SummaryReadingOf(x) == Ok(rd)
    ensures SummaryReadings(results + [x]) == Ok(rs + [rd])
  {
    assert (results + [x])[..|results|] == results;
  }

  /** Filtering one more result appends it exactly when it is out of focus. */
  lemma OutOfFocusSnoc(results: seq<Value>, x: Value, kept: seq<Value>, rd: Reading)
    requires OutOfFocus(results) == Ok(kept) && ReadingOf(x) == Ok(rd)
    ensures OutOfFocus(results + [x]) == Ok(if Failing(rd.level) then kept + [x] else kept)
  {
    assert (results + [x])[..|results|] == results;
  }

  /** The fixture's levels: only "poor" fails for focus. */
  lemma FixtureLevels()
    ensures !Failing(Str("good")) && Failing(Str("poor")) && !Failing(Str("acceptable"))
  {
    assert "good"[0] != "poor"[0];
  }

  /** The fixture's levels each go to their own counter. */
  lemma FixtureCounts(d: Distribution)
    ensures Count(d, Str("good")) == d.(good := d.good + 1)
    ensures Count(d, Str("poor")) == d.(poor := d.poor + 1)
    ensures Count(d, Str("acceptable")) == d.(acceptable := d.acceptable + 1)
  {
    assert CustomFocus.LevelName(CustomFocus.Excellent) == "excellent";
    assert CustomFocus.LevelName(CustomFocus.Good) == "good";
    assert CustomFocus.LevelName(CustomFocus.Acceptable) == "acceptable";
    assert CustomFocus.LevelName(CustomFocus.Poor) == "poor";
    assert Str("good") != Str("excellent") by { assert |"good"| != |"excellent"|; }
    assert Str("poor") != Str("excellent") by { assert |"poor"| != |"excellent"|; }
    assert Str("poor") != Str("good") by { assert "poor"[0] != "good"[0]; }
    assert Str("poor") != Str("acceptable") by { assert |"poor"| != |"acceptable"|; }
    assert Str("acceptable") != Str("excellent") by { assert |"acceptable"| != |"excellent"|; }
    assert Str("acceptable") != Str("good") by { assert |"acceptable"| != |"good"|; }
  }

  /** Adding one more numeric score adds it to the sum. */
  lemma SumScoresSnoc(scores: seq<Value>, total: real, n: real)
    requires SumScores(scores) == Some(total)
    ensures SumScores(scores + [Num(n)]) == Some(total + n)
  {
    assert (scores + [Num(n)])[..|scores|] == scores;
  }

  /** The readings of the simulated results. */
  const SimulatedReadings: seq<Reading> := [
    Reading(Str("good"), Num(245.7)), Reading(Str("poor"), Num(68.4)), Reading(Str("acceptable"), Num(138.2))]

  lemma SimulatedResultsRead()
    ensures SummaryReadings(SimulatedResults) == Ok(SimulatedReadings)
  {
    var r := SimulatedReadings;
    var x := SimulatedResults;
    assert [] + [x[0]] == [x[0]] && [] + [r[0]] == [r[0]];
    assert [x[0]] + [x[1]] == [x[0], x[1]] && [r[0]] + [r[1]] == [r[0], r[1]];
    assert [x[0], x[1]] + [x[2]] == x && [r[0], r[1]] + [r[2]] == r;
    SimulatedReading("simulated_sharp_image.jpg", 0.89, "pass", "good", 245.7, 0.92);
    SimulatedReading("simulated_blurry_image.jpg", 0.42, "fail", "poor", 68.4, 0.87);
    SimulatedReading("simulated_soft_image.jpg", 0.66, "warn", "acceptable", 138.2, 0.79);
    SummaryReadingsSnoc([], x[0], [], r[0]);
    SummaryReadingsSnoc([x[0]], x[1], [r[0]], r[1]);
    SummaryReadingsSnoc([x[0], x[1]], x[2], [r[0], r[1]], r[2]);
  }

  /** Three readings tallied one after the other. */
  lemma TallyThree(a: Reading, b: Reading, c: Reading)
    ensures Tally([a, b, c]) == Count(Count(Count(EmptyDistribution, a.level), b.level), c.level)
    ensures FailedCount([a, b, c])
      == (if Failing(a.level) then 1 else 0) + (if Failing(b.level) then 1 else 0) + (if Failing(c.level) then 1 else 0)
  {
    assert [] + [a] == [a];
    assert [a] + [b] == [a, b];
    assert [a, b] + [c] == [a, b, c];
    TallySnoc([], a);
    TallySnoc([a], b);
    TallySnoc([a, b], c);
  }

  lemma SimulatedTally()
    ensures Tally(SimulatedReadings) == Distribution(0, 1, 1, 1, 0)
    ensures FailedCount(SimulatedReadings) == 1
  {
    var r := SimulatedReadings;
    TallyThree(r[0], r[1], r[2]);
    assert r == [r[0], r[1], r[2]];
    FixtureLevels();
    FixtureCounts(EmptyDistribution);
    FixtureCounts(Distribution(0, 1, 0, 0, 0));
    FixtureCounts(Distribution(0, 1, 0, 1, 0));
  }

  lemma SimulatedScores()
    ensures SumScores(Scores(SimulatedReadings)) == Some(0.0 + 245.7 + 68.4 + 138.2)
  {
    var r := SimulatedReadings;
    TallySnoc([], r[0]);
    assert [] + [r[0]] == [r[0]];
    TallySnoc([r[0]], r[1]);
    assert [r[0]] + [r[1]] == [r[0], r[1]];
    TallySnoc([r[0], r[1]], r[2]);
    assert [r[0], r[1]] + [r[2]] == r;
    var a, b, c := Num(245.7), Num(68.4), Num(138.2);
    assert Scores(r) == [] + [a] + [b] + [c];
    SumScoresSnoc([], 0.0, 245.7);
    assert [] + [a] == [a];
    SumScoresSnoc([a], 0.0 + 245.7, 68.4);
    assert [a] + [b] == [a, b];
    SumScoresSnoc([a, b], 0.0 + 245.7 + 68.4, 138.2);
    assert [] + [a] + [b] + [c] == [a, b] + [c];
  }

  /** On the fixture one image fails (the blurry one) and two thirds succeed. */
  lemma SimulatedSummary()
    ensures SummaryOf(SimulatedResults) == Ok(Summary(
      3, Distribution(0, 1, 1, 1, 0), 1, 200.0 / 3.0, (245.7 + 68.4 + 138.2) / 3.0))
  {
    SimulatedResultsRead();
    SimulatedTally();
    SimulatedScores();
  }

  lemma TallySnoc(rs: seq<Reading>, r: Reading)
    ensures Tally(rs + [r]) == Count(Tally(rs), r.level)
    ensures FailedCount(rs + [r]) == FailedCount(rs) + (if Failing(r.level) then 1 else 0)
    ensures Scores(rs + [r]) == Scores(rs) + [r.score]
  {
    assert (rs + [r])[..|rs|] == rs;
  }

  /** On the fixture the filter picks out the blurry image alone. */
  lemma SimulatedFilter()
    ensures OutOfFocus(SimulatedResults) == Ok([SimulatedResults[1]])
  {
    var x := SimulatedResults;
    assert [] + [x[0]] == [x[0]] && [] + [x[1]] == [x[1]];
    assert [x[0]] + [x[1]] == [x[0], x[1]];
    assert [x[0], x[1]] + [x[2]] == x;
    SimulatedReading("simulated_sharp_image.jpg", 0.89, "pass", "good", 245.7, 0.92);
    SimulatedReading("simulated_blurry_image.jpg", 0.42, "fail", "poor", 68.4, 0.87);
    SimulatedReading("simulated_soft_image.jpg", 0.66, "warn", "acceptable", 138.2, 0.79);
    FixtureLevels();
    OutOfFocusSnoc([], x[0], [], Reading(Str("good"), Num(245.7)));
    OutOfFocusSnoc([x[0]], x[1], [], Reading(Str("poor"), Num(68.4)));
    OutOfFocusSnoc([x[0], x[1]], x[2], [x[1]], Reading(Str("acceptable"), Num(138.2)));
  }
}
