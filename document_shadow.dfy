/**
 * Document shadow detection: the halo a loose sheet casts on the page beneath
 * it. The model covers the sampling of intensities outward from an edge point,
 * the shadow width of one sample run, the classification of the measured
 * gradient, the error result, the score and the recommendations, and the metric
 * object whose attributes `analyze` overrides from its config. Grayscale
 * conversion, blurring, Canny edges and contours are the imaging library's and
 * reach the model as their outcome.
 */
module DocumentShadow {
  import opened Values
  import opened MaskUtils
  import Stats

  /** `safe_divide`: 0.0 for a zero divisor, the quotient otherwise. */
  function SafeDivide(a: real, b: real): (r: real)
    ensures b == 0.0 ==> r == 0.0
    ensures b != 0.0 ==> r * b == a
  {
    if b == 0.0 then 0.0 else a / b
  }

  // ---------------------------------------------------------------------------
  // _sample_perpendicular_gradient

  /** The eight directions tried, in order. */
  const Directions: seq<(int, int)> := [(1, 0), (-1, 0), (0, 1), (0, -1), (1, 1), (-1, -1), (1, -1), (-1, 1)]

  /** The gray image and the contour mask share the shape `(|image|, w)`. */
  predicate Frame(image: seq<seq<int>>, mask: seq<seq<int>>, w: nat)
  {
    Rect(image, w) && Rect(mask, w) && |mask| == |image|
  }

  /**
   * The samples step `i` onward of direction `(dx, dy)` collects: the pixel
   * `(x + 2 i dx, y + 2 i dy)` while it lies in the frame and, past the third
   * step, outside the document; the run stops at the first pixel that does not.
   */
  function RayFrom(image: seq<seq<int>>, mask: seq<seq<int>>, w: nat, x: int, y: int, dx: int, dy: int,
                   n: int, i: nat): seq<int>
    requires Frame(image, mask, w)
    decreases n - i
  {
    if i >= n then []
    else
      var sx, sy := x + dx * i * 2, y + dy * i * 2;
      if !(0 <= sx < w && 0 <= sy < |image|) then []
      else if i > 2 && mask[sy][sx] > 0 then []
      else [image[sy][sx]] + RayFrom(image, mask, w, x, y, dx, dy, n, i + 1)
  }

  /** The samples of direction `d` for `n` steps. */
  function Ray(image: seq<seq<int>>, mask: seq<seq<int>>, w: nat, x: int, y: int, d: (int, int), n: int)
    : seq<int>
    requires Frame(image, mask, w)
  {
    RayFrom(image, mask, w, x, y, d.0, d.1, n, 0)
  }

  /** The sample runs of all eight directions, in order. */
  function Rays(image: seq<seq<int>>, mask: seq<seq<int>>, w: nat, x: int, y: int, n: int): (r: seq<seq<int>>)
    requires Frame(image, mask, w)
    ensures |r| == |Directions|
    ensures forall k :: 0 <= k < |r| ==> r[k] == Ray(image, mask, w, x, y, Directions[k], n)
  {
    seq(|Directions|, k requires 0 <= k < |Directions| => Ray(image, mask, w, x, y, Directions[k], n))
  }

  /** `best_samples` after the runs `rays`: a run replaces it only when strictly longer. */
  function Best(rays: seq<seq<int>>): seq<int>
  {
    if rays == [] then []
    else
      var prev := Best(rays[..|rays| - 1]);
      if |rays[|rays| - 1]| > |prev| then rays[|rays| - 1] else prev
  }

  /** `_sample_perpendicular_gradient`: the best run when it holds at least 5 samples, else none. */
  function PerpendicularSamples(image: seq<seq<int>>, mask: seq<seq<int>>, w: nat, x: int, y: int, n: int)
    : seq<int>
    requires Frame(image, mask, w)
  {
    var b := Best(Rays(image, mask, w, x, y, n));
    if |b| >= 5 then b else []
  }

  /** Step `i + k` of a run is the in-frame pixel on the ray at distance `2 (i + k)`. */
  lemma {:induction false} RayFromSamples(image: seq<seq<int>>, mask: seq<seq<int>>, w: nat, x: int, y: int,
                                         dx: int, dy: int, n: int, i: nat, k: nat)
    requires Frame(image, mask, w) && k < |RayFrom(image, mask, w, x, y, dx, dy, n, i)|
    ensures var sx, sy := x + dx * (i + k) * 2, y + dy * (i + k) * 2;
      && 0 <= sx < w && 0 <= sy < |image|
      && RayFrom(image, mask, w, x, y, dx, dy, n, i)[k] == image[sy][sx]
    decreases n - i
  {
    if k > 0 {
      RayFromSamples(image, mask, w, x, y, dx, dy, n, i + 1, k - 1);
    }
  }

  lemma {:induction false} RayFromLength(image: seq<seq<int>>, mask: seq<seq<int>>, w: nat, x: int, y: int,
                                        dx: int, dy: int, n: int, i: nat)
    requires Frame(image, mask, w)
    ensures |RayFrom(image, mask, w, x, y, dx, dy, n, i)| <= IMax(n - i, 0)
    decreases n - i
  {
    if i < n {
      RayFromLength(image, mask, w, x, y, dx, dy, n, i + 1);
    }
  }

  /** Run `k` is the first of the longest runs: every earlier run is strictly shorter, none is longer. */
  predicate FirstLongest(rays: seq<seq<int>>, k: nat)
    requires k < |rays|
  {
    (forall j :: 0 <= j < k ==> |rays[j]| < |rays[k]|) && forall j :: 0 <= j < |rays| ==> |rays[j]| <= |rays[k]|
  }

  /**
   * The best run is at least as long as every run, and unless it is empty it is
   * the first of the longest: every run before it is strictly shorter.
   */
  lemma {:induction false} BestIsFirstLongest(rays: seq<seq<int>>)
    ensures forall k :: 0 <= k < |rays| ==> |rays[k]| <= |Best(rays)|
    ensures Best(rays) == [] || exists k :: 0 <= k < |rays| && Best(rays) == rays[k] && FirstLongest(rays, k)
  {
    if rays != [] {
      var n := |rays| - 1;
      var prefix := rays[..n];
      BestIsFirstLongest(prefix);
      assert forall k :: 0 <= k < n ==> prefix[k] == rays[k];
      if |rays[n]| <= |Best(prefix)| && Best(prefix) != [] {
        var k :| 0 <= k < n && Best(prefix) == prefix[k] && FirstLongest(prefix, k);
        assert Best(rays) == rays[k] && FirstLongest(rays, k);
      }
    }
  }

  /**
   * The samples are empty or hold at least 5 and at most `n` values; a non-empty
   * result is the first direction's run of greatest length, read off the image.
   */
  lemma PerpendicularSamplesFacts(image: seq<seq<int>>, mask: seq<seq<int>>, w: nat, x: int, y: int, n: int)
    requires Frame(image, mask, w)
    ensures var s := PerpendicularSamples(image, mask, w, x, y, n);
      && (s == [] || 5 <= |s| <= n)
      && (s != [] ==> exists k :: 0 <= k < |Directions| && s == Rays(image, mask, w, x, y, n)[k] && FirstLongest(Rays(image, mask, w, x, y, n), k))
  {
    var rays := Rays(image, mask, w, x, y, n);
    BestIsFirstLongest(rays);
    var s := PerpendicularSamples(image, mask, w, x, y, n);
    if s != [] {
      var k :| 0 <= k < |rays| && Best(rays) == rays[k] && FirstLongest(rays, k);
      RayFromLength(image, mask, w, x, y, Directions[k].0, Directions[k].1, n, 0);
    }
  }

  /** One step of a run: a sample taken, or the run ended. */
  lemma RayStep(image: seq<seq<int>>, mask: seq<seq<int>>, w: nat, x: int, y: int, dx: int, dy: int,
                n: int, i: nat, sx: int, sy: int)
    requires Frame(image, mask, w) && i < n && sx == x + dx * i * 2 && sy == y + dy * i * 2
    ensures !(0 <= sx < w && 0 <= sy < |image|) ==> RayFrom(image, mask, w, x, y, dx, dy, n, i) == []
    ensures 0 <= sx < w && 0 <= sy < |image| && i > 2 && mask[sy][sx] > 0 ==>
      RayFrom(image, mask, w, x, y, dx, dy, n, i) == []
    ensures 0 <= sx < w && 0 <= sy < |image| && !(i > 2 && mask[sy][sx] > 0) ==>
      RayFrom(image, mask, w, x, y, dx, dy, n, i) == [image[sy][sx]] + RayFrom(image, mask, w, x, y, dx, dy, n, i + 1)
  {
  }

  /** The best of one more run. */
  lemma BestStep(rays: seq<seq<int>>, k: nat)
    requires k < |rays|
    ensures Best(rays[..k + 1]) == if |rays[k]| > |Best(rays[..k])| then rays[k] else Best(rays[..k])
  {
    assert rays[..k + 1][..k] == rays[..k];
  }

  /** The inner loop of `_sample_perpendicular_gradient`: one direction's run, ended by `break`. */
  method SampleDirection(image: seq<seq<int>>, x: int, y: int, contourMask: seq<seq<int>>, w: nat,
                         dx: int, dy: int, numSamples: int)
    returns (currentSamples: seq<int>)
    requires Frame(image, contourMask, w)
    ensures currentSamples == RayFrom(image, contourMask, w, x, y, dx, dy, numSamples, 0)
  {
    var height := |image|;
    currentSamples := [];
    var i := 0;
    while i < numSamples
      invariant 0 <= i
      invariant currentSamples + RayFrom(image, contourMask, w, x, y, dx, dy, numSamples, i)
                == RayFrom(image, contourMask, w, x, y, dx, dy, numSamples, 0)
    {
      var sampleX, sampleY := x + dx * i * 2, y + dy * i * 2;
      RayStep(image, contourMask, w, x, y, dx, dy, numSamples, i, sampleX, sampleY);
      if 0 <= sampleX < w && 0 <= sampleY < height {
        if i > 2 && contourMask[sampleY][sampleX] > 0 {
          break;
        }
        currentSamples := currentSamples + [image[sampleY][sampleX]];
      } else {
        break;
      }
      i := i + 1;
    }
  }

  /** `_sample_perpendicular_gradient`, with its loop over the directions. */
  method SamplePerpendicularGradient(image: seq<seq<int>>, x: int, y: int, contourMask: seq<seq<int>>, w: nat,
                                     numSamples: int)
    returns (samples: seq<int>)
    requires Frame(image, contourMask, w)
    ensures samples == PerpendicularSamples(image, contourMask, w, x, y, numSamples)
  {
    ghost var rays := Rays(image, contourMask, w, x, y, numSamples);
    var bestSamples: seq<int> := [];
    var maxValidSamples := 0;
    var k := 0;
    while k < |Directions|
      invariant 0 <= k <= |Directions|
      invariant bestSamples == Best(rays[..k]) && maxValidSamples == |bestSamples|
    {
      var (dx, dy) := Directions[k];
      var currentSamples := SampleDirection(image, x, y, contourMask, w, dx, dy, numSamples);
      assert currentSamples == rays[k];
      BestStep(rays, k);
      if |currentSamples| > maxValidSamples {
        maxValidSamples := |currentSamples|;
        bestSamples := currentSamples;
      }
      k := k + 1;
    }
    assert rays[..k] == rays;
    samples := if |bestSamples| >= 5 then bestSamples else [];
  }

  // ---------------------------------------------------------------------------
  // _calculate_shadow_width

  /** The first index from `i` on whose step `s[j + 1] - s[j]` is below 2 in size, or `|s|` if none. */
  function FirstStable(s: seq<int>, i: nat): (r: nat)
    ensures r <= |s| && (r < |s| ==> i <= r)
    decreases |s| - i
  {
    if i + 1 >= |s| then |s|
    else if -2 < s[i + 1] - s[i] < 2 then i
    else FirstStable(s, i + 1)
  }

  /**
   * The shadow width of one run of samples: 0 for fewer than 3 samples, twice the
   * index of the first step below 2 in size, or twice the length if none is.
   */
  function ShadowWidth(s: seq<int>): int
  {
    if |s| < 3 then 0 else 2 * FirstStable(s, 0)
  }

  lemma {:induction false} FirstStableIsFirst(s: seq<int>, i: nat)
    ensures var r := FirstStable(s, i);
      && (r < |s| ==> i <= r && r + 1 < |s| && -2 < s[r + 1] - s[r] < 2)
      && (forall j :: i <= j < r && j + 1 < |s| ==> !(-2 < s[j + 1] - s[j] < 2))
    decreases |s| - i
  {
    if i + 1 < |s| && !(-2 < s[i + 1] - s[i] < 2) {
      FirstStableIsFirst(s, i + 1);
    }
  }

  /**
   * The width is even and lies in `[0, 2 |s|]`; from 3 samples on it is twice the
   * first stable index when there is one, and exactly `2 |s|` when no step is stable.
   */
  lemma ShadowWidthFacts(s: seq<int>)
    ensures var r := ShadowWidth(s);
      && r % 2 == 0 && 0 <= r <= 2 * |s|
      && (|s| < 3 ==> r == 0)
      && (|s| >= 3 ==> ((forall j :: 0 <= j < |s| - 1 ==> !(-2 < s[j + 1] - s[j] < 2)) <==> r == 2 * |s|))
      && (|s| >= 3 && r < 2 * |s| ==> r / 2 + 1 < |s| && -2 < s[r / 2 + 1] - s[r / 2] < 2)
  {
    FirstStableIsFirst(s, 0);
  }

  /** `_calculate_shadow_width`, with its loop over the steps and its early return. */
  method CalculateShadowWidth(intensitySamples: seq<int>) returns (width: int)
    ensures width == ShadowWidth(intensitySamples)
  {
    if |intensitySamples| < 3 {
      return 0;
    }
    var i := 0;
    while i < |intensitySamples| - 1
      invariant 0 <= i <= |intensitySamples| - 1
      invariant FirstStable(intensitySamples, i) == FirstStable(intensitySamples, 0)
    {
      var gradient := intensitySamples[i + 1] - intensitySamples[i];
      if -2 < gradient < 2 {
        return i * 2;
      }
      i := i + 1;
    }
    return |intensitySamples| * 2;
  }

  /**
   * The width as the source computes it on 8-bit samples: `np.diff` of an
   * `uint8` array wraps around modulo 256 and `abs` of the wrapped step changes
   * nothing, so only a step of 0 or +1 counts as stable.
   */
  function FirstStableUint8(s: seq<int>, i: nat): (r: nat)
    decreases |s| - i
  {
    if i + 1 >= |s| then |s|
    else if (s[i + 1] - s[i]) % 256 < 2 then i
    else FirstStableUint8(s, i + 1)
  }

  function ShadowWidthUint8(s: seq<int>): int
  {
    if |s| < 3 then 0 else 2 * FirstStableUint8(s, 0)
  }

  /** A run falling by 1 per sample stabilizes at once, but the wrapped steps read 255 and never do. */
  lemma DecreasingRunDiffers()
    ensures ShadowWidth([200, 199, 198]) == 0
    ensures ShadowWidthUint8([200, 199, 198]) == 6
  {
    assert FirstStableUint8([200, 199, 198], 1) == 3;
  }

  // ---------------------------------------------------------------------------
  // _classify_shadow

  /** The gradient measurements `_analyze_shadow_gradient` reports. */
  datatype ShadowMetrics = ShadowMetrics(
    edgeIntensityAvg: real,
    outerIntensityAvg: real,
    avgIntensityDiff: real,
    avgShadowWidth: real,
    gradientVariance: real,
    shadowCoveragePercent: real,
    shadowPixelCount: nat,
    totalAnalysisPixels: nat,
    perimeterLength: real,
    contourArea: real,
    sampleCount: nat)

  /** `_create_empty_shadow_metrics`. */
  const EmptyShadowMetrics: ShadowMetrics := ShadowMetrics(128.0, 128.0, 0.0, 0.0, 0.0, 0.0, 0, 0, 0.0, 0.0, 0)

  datatype Classification = Classification(
    shadowPresent: bool,
    confidence: real,
    qualityScore: real,
    intensityConfidence: real,
    smoothnessConfidence: real,
    widthConfidence: real)

  /** The confidence factors: intensity, smoothness when the variance is positive, and width. */
  function ConfidenceFactors(threshold: real, m: ShadowMetrics): (r: seq<real>)
    requires threshold != 0.0
    ensures 2 <= |r| <= 3
  {
    var intensity := Min(m.avgIntensityDiff / (threshold * 2.0), 1.0);
    var smoothness := if m.gradientVariance > 0.0 then [Max(0.0, 1.0 - m.gradientVariance / 100.0)] else [];
    var width := if 5.0 <= m.avgShadowWidth <= 100.0 then 1.0 else 0.5;
    [intensity] + smoothness + [width]
  }

  /**
   * `_classify_shadow` with the metric's `shadow_threshold`. A zero threshold makes
   * the intensity factor divide by zero, which `analyze` catches.
   */
  function ClassifyShadow(threshold: real, m: ShadowMetrics): Result<Classification>
  {
    if threshold == 0.0 then Err("float division by zero")
    else
      var factors := ConfidenceFactors(threshold, m);
      var present := m.avgIntensityDiff > threshold;
      Ok(Classification(
        present,
        Stats.Mean(factors),
        if present then Max(0.0, 1.0 - m.avgIntensityDiff / 100.0) else 1.0,
        factors[0],
        if |factors| > 1 then factors[1] else 0.0,
        factors[|factors| - 1]))
  }

  lemma {:induction false} SumAtMostOne(xs: seq<real>)
    requires forall i :: 0 <= i < |xs| ==> xs[i] <= 1.0
    ensures Sum(xs) <= |xs| as real
  {
    if xs != [] {
      SumAtMostOne(xs[..|xs| - 1]);
    }
  }

  /**
   * A shadow is present exactly when the intensity difference exceeds the threshold.
   * The quality is 1.0 without a shadow and `max(0, 1 - diff / 100)` with one, so it
   * is never negative, and at most 1 for a non-negative threshold; the width confidence is 1.0 exactly for a width in [5, 100] and
   * 0.5 otherwise, and the overall confidence is at most 1.
   */
  lemma ClassificationFacts(threshold: real, m: ShadowMetrics)
    requires threshold != 0.0
    ensures ClassifyShadow(threshold, m).Ok?
    ensures var c := ClassifyShadow(threshold, m).value;
      && (c.shadowPresent <==> m.avgIntensityDiff > threshold)
      && (!c.shadowPresent ==> c.qualityScore == 1.0)
      && (c.shadowPresent ==> c.qualityScore == Max(0.0, 1.0 - m.avgIntensityDiff / 100.0))
      && 0.0 <= c.qualityScore
      && (threshold >= 0.0 ==> c.qualityScore <= 1.0)
      && (c.shadowPresent && threshold >= 0.0 ==> c.qualityScore < 1.0)
      && (c.widthConfidence == 1.0 <==> 5.0 <= m.avgShadowWidth <= 100.0)
      && (c.widthConfidence != 1.0 ==> c.widthConfidence == 0.5)
      && c.intensityConfidence <= 1.0
      && c.confidence <= 1.0
  {
    var factors := ConfidenceFactors(threshold, m);
    SumAtMostOne(factors);
    DivBetweenOne(Sum(factors), |factors| as real);
  }

  lemma DivBetweenOne(a: real, n: real)
    requires n > 0.0 && a <= n
    ensures a / n <= 1.0
  {
  }

  /**
   * Without a positive gradient variance there is no smoothness factor, and the
   * reported smoothness detail is the width confidence (the second factor).
   */
  lemma FlatGradientReportsWidth(threshold: real, m: ShadowMetrics)
    requires threshold != 0.0 && m.gradientVariance <= 0.0
    ensures var c := ClassifyShadow(threshold, m).value;
      c.smoothnessConfidence == c.widthConfidence
  {
  }

  // ---------------------------------------------------------------------------
  // The analysis result, its score and its recommendations

  datatype ShadowResult = ShadowResult(
    shadowPresent: bool,
    shadowIntensity: real,
    shadowWidth: real,
    shadowCoverage: real,
    perimeterAnalyzed: real,
    confidence: real,
    qualityScore: real,
    error: Option<string>)

  /** `_create_error_result`: no shadow, neutral quality 0.5, and the message. */
  function ErrorResult(message: string): (r: ShadowResult)
    ensures !r.shadowPresent && r.qualityScore == 0.5 && r.error == Some(message)
  {
    ShadowResult(false, 0.0, 0.0, 0.0, 0.0, 0.0, 0.5, Some(message))
  }

  /** What the imaging steps of `analyze` produced. */
  datatype ShadowInput =
    | NotGrayscale
    | NoEdges
    | Raised(message: string)
    | Measured(metrics: ShadowMetrics)

  /** The result of `analyze` once the image has gone through the imaging steps. */
  function AnalyzeOutcome(threshold: real, input: ShadowInput): ShadowResult
  {
    match input
    case NotGrayscale => ErrorResult("Failed to convert image to grayscale")
    case NoEdges => ErrorResult("Could not detect document edges")
    case Raised(msg) => ErrorResult("Shadow analysis failed: " + msg)
    case Measured(m) =>
      match ClassifyShadow(threshold, m)
      case Err(msg) => ErrorResult("Shadow analysis failed: " + msg)
      case Ok(c) =>
        ShadowResult(c.shadowPresent, m.avgIntensityDiff, m.avgShadowWidth, m.shadowCoveragePercent,
                     m.perimeterLength, c.confidence, c.qualityScore, None)
  }

  const ErrorKey: string := "error"
  const QualityKey: string := "quality_score"

  /** The top-level entries of the result dict. */
  function ToValue(r: ShadowResult): Value
  {
    Obj([
      ("shadow_present", Bool(r.shadowPresent)),
      ("shadow_intensity", Num(r.shadowIntensity)),
      ("shadow_width", Num(r.shadowWidth)),
      ("shadow_coverage", Num(r.shadowCoverage)),
      ("perimeter_analyzed", Num(r.perimeterAnalyzed)),
      ("confidence", Num(r.confidence)),
      (QualityKey, Num(r.qualityScore))
    ] + (if r.error.Some? then [(ErrorKey, Str(r.error.value))] else []))
  }

  /** `get_score`: 0.5 for an error result, else its quality score, 0.5 when missing. */
  function GetScore(analysisResult: Value): real
  {
    if Has(analysisResult, ErrorKey) then 0.5 else NumOr(analysisResult, QualityKey, 0.5)
  }

  const ErrorRecommendation: string := "⚠️ Shadow analysis could not be completed - check image quality and document edges"
  const FlatRecommendation: string := "💡 For best results: ensure document is completely flat against scanning surface"
  const LightingRecommendation: string := "💡 Use consistent lighting to minimize shadows"

  const StrongShadow: string := "❌ Strong document shadow detected - ensure flat document placement"
  const StrongShadowHint: string := "💡 Use document holder or press document flat against scanning surface"
  const ModerateShadow: string := "⚠️ Moderate shadow detected - improve document flatness"
  const ModerateShadowHint: string := "💡 Check lighting conditions and document positioning"
  const MinorShadow: string := "⚠️ Minor shadow detected - consider improving document placement"
  const WideShadow: string := "📏 Wide shadow detected - document may be significantly raised"
  const LowConfidence: string := "❓ Shadow detection confidence is low - manual verification recommended"
  const NoShadow: string := "✅ No significant document shadow detected - good document flatness"
  const NoShadowModerate: string := "✅ No shadow detected, but confidence is moderate - image quality may affect detection"

  /** The recommendations for a present shadow, by strength, width and confidence. */
  function ShadowRecommendations(intensity: real, width: real, confidence: real): (r: seq<string>)
    ensures 1 <= |r| <= 4
    ensures r[0] == (if intensity > 50.0 then StrongShadow else if intensity > 30.0 then ModerateShadow else MinorShadow)
  {
    (if intensity > 50.0 then [StrongShadow, StrongShadowHint]
     else if intensity > 30.0 then [ModerateShadow, ModerateShadowHint]
     else [MinorShadow])
    + (if width > 30.0 then [WideShadow] else [])
    + (if confidence < 0.5 then [LowConfidence] else [])
  }

  /** `get_recommendations`. */
  function GetRecommendations(analysisResult: Value): seq<string>
  {
    if Has(analysisResult, ErrorKey) then [ErrorRecommendation]
    else
      var confidence := NumOr(analysisResult, "confidence", 0.0);
      (if TruthyOr(analysisResult, "shadow_present", false) then
         ShadowRecommendations(NumOr(analysisResult, "shadow_intensity", 0.0),
                               NumOr(analysisResult, "shadow_width", 0.0), confidence)
       else if confidence > 0.8 then [NoShadow]
       else [NoShadowModerate])
      + [FlatRecommendation, LightingRecommendation]
  }

  /**
   * An error result gets exactly the one error recommendation; any other ends with
   * the two general lines, has 3 lines without a shadow and 3 to 6 with one.
   */
  lemma RecommendationShapes(analysisResult: Value)
    ensures var r := GetRecommendations(analysisResult);
      && (Has(analysisResult, ErrorKey) ==> r == [ErrorRecommendation])
      && (!Has(analysisResult, ErrorKey) ==>
            && |r| >= 3 && r[|r| - 2] == FlatRecommendation && r[|r| - 1] == LightingRecommendation
            && (!TruthyOr(analysisResult, "shadow_present", false) ==> |r| == 3)
            && (TruthyOr(analysisResult, "shadow_present", false) ==> |r| <= 6))
  {
  }

  lemma {:induction false} KeysOfAppend(d: seq<(string, Value)>, e: seq<(string, Value)>, k: string)
    requires k !in Keys(d)
    ensures Get(d + e, k) == Get(e, k)
  {
    if d != [] {
      assert Keys(d) == [d[0].0] + Keys(d[1..]);
      assert (d + e)[0] == d[0] && (d + e)[1..] == d[1..] + e;
      assert d[0].0 != k;
      KeysOfAppend(d[1..], e, k);
      assert Get(d + e, k) == Get((d + e)[1..], k);
    } else {
      assert d + e == e;
    }
  }

  /**
   * A result dict carries the "error" key exactly for an error result; its score is
   * then 0.5, else its quality score.
   */
  lemma ScoreOfResult(r: ShadowResult)
    ensures Has(ToValue(r), ErrorKey) <==> r.error.Some?
    ensures GetScore(ToValue(r)) == if r.error.Some? then 0.5 else r.qualityScore
  {
    var head := [
      ("shadow_present", Bool(r.shadowPresent)),
      ("shadow_intensity", Num(r.shadowIntensity)),
      ("shadow_width", Num(r.shadowWidth)),
      ("shadow_coverage", Num(r.shadowCoverage)),
      ("perimeter_analyzed", Num(r.perimeterAnalyzed)),
      ("confidence", Num(r.confidence)),
      (QualityKey, Num(r.qualityScore))
    ];
    var tail: seq<(string, Value)> := if r.error.Some? then [(ErrorKey, Str(r.error.value))] else [];
    assert ToValue(r).fields == head + tail;
    assert ErrorKey !in Keys(head) by {
      assert forall i :: 0 <= i < |head| ==> head[i].0[0] != ErrorKey[0];
      NotInKeys(head, ErrorKey);
    }
    KeysOfAppend(head, tail, ErrorKey);
    assert Get(head, QualityKey) == Some(Num(r.qualityScore)) by {
      assert forall j :: 0 <= j < 6 ==> head[j].0[0] != QualityKey[0];
      GetIndex(head, 6);
    }
    GetPrefix(head, tail, QualityKey);
  }

  lemma {:induction false} GetPrefix(d: seq<(string, Value)>, e: seq<(string, Value)>, k: string)
    requires Get(d, k).Some?
    ensures Get(d + e, k) == Get(d, k)
  {
    if d[0].0 != k {
      assert (d + e)[1..] == d[1..] + e;
      GetPrefix(d[1..], e, k);
    }
  }

  // ---------------------------------------------------------------------------
  // The metric object

  /** The attributes `__init__` sets, from `config or {}`. */
  function InitialAttributes(config: Value): seq<(string, Value)>
  {
    var c := if Truthy(config) then config else Obj([]);
    [("name", Str("documentshadowmetric")),
     ("config", c),
     ("shadow_threshold", GetOr(c, "shadow_threshold", Num(20.0))),
     ("analysis_band_width", GetOr(c, "analysis_band_width", Num(50.0))),
     ("min_contour_area", GetOr(c, "min_contour_area", Num(10000.0))),
     ("gaussian_blur_kernel", GetOr(c, "gaussian_blur_kernel", Num(3.0))),
     ("canny_low", GetOr(c, "canny_low", Num(50.0))),
     ("canny_high", GetOr(c, "canny_high", Num(150.0)))]
  }

  /** The attributes after `setattr(self, key, value)` for each item, in order. */
  function Override(attrs: seq<(string, Value)>, items: seq<(string, Value)>): seq<(string, Value)>
  {
    if items == [] then attrs
    else
      var n := |items| - 1;
      Put(Override(attrs, items[..n]), items[n].0, items[n].1)
  }

  /**
   * After the override, an attribute named in the config holds the config's value
   * and every other attribute keeps its value.
   */
  lemma {:induction false} OverrideGet(attrs: seq<(string, Value)>, items: seq<(string, Value)>, k: string)
    requires UniqueKeys(items)
    ensures Get(Override(attrs, items), k) == if k in Keys(items) then Get(items, k) else Get(attrs, k)
  {
    if items != [] {
      var n := |items| - 1;
      var prefix := items[..n];
      assert UniqueKeys(prefix);
      OverrideGet(attrs, prefix, k);
      assert items == prefix + [items[n]];
      GetAppend(prefix, items[n].0, items[n].1, k);
      KeysAppend(prefix, items[n].0, items[n].1);
      if k == items[n].0 {
        GetPutSame(Override(attrs, prefix), k, items[n].1);
        assert k !in Keys(prefix) by {
          forall j | 0 <= j < |prefix| ensures Keys(prefix)[j] != k {
            KeysAt(prefix, j);
          }
        }
      } else {
        GetPutOther(Override(attrs, prefix), items[n].0, items[n].1, k);
      }
    }
  }

  /** `DocumentShadowMetric`: its attributes are the instance's `__dict__`. */
  class ShadowMetric {
    var attrs: seq<(string, Value)>

    /** `__init__`: the configuration and the defaults read from it. */
    constructor(config: Value)
      ensures attrs == InitialAttributes(config)
    {
      attrs := InitialAttributes(config);
    }

    /** `self.shadow_threshold`, read as a number. */
    function ShadowThreshold(): real
      reads this
    {
      NumOr(Obj(attrs), "shadow_threshold", 20.0)
    }

    /** The override at the head of `analyze`: each config item becomes an attribute. */
    method ApplyConfig(config: Value)
      requires config.Null? || config.Obj?
      modifies this
      ensures attrs == if Truthy(config) then Override(old(attrs), config.fields) else old(attrs)
    {
      if Truthy(config) {
        var items := config.fields;
        var i := 0;
        while i < |items|
          invariant 0 <= i <= |items|
          invariant attrs == Override(old(attrs), items[..i])
        {
          var (key, value) := items[i];
          assert items[..i + 1][..i] == items[..i];
          attrs := Put(attrs, key, value);
          i := i + 1;
        }
        assert items[..i] == items;
      }
    }

    /**
     * `analyze`: overrides the attributes from `config`, then classifies what the
     * imaging steps measured under the (possibly new) threshold. The override
     * persists for later calls.
     */
    method Analyze(config: Value, input: ShadowInput) returns (result: ShadowResult)
      requires config.Null? || config.Obj?
      modifies this
      ensures attrs == if Truthy(config) then Override(old(attrs), config.fields) else old(attrs)
      ensures result == AnalyzeOutcome(ShadowThreshold(), input)
    {
      ApplyConfig(config);
      result := AnalyzeOutcome(ShadowThreshold(), input);
    }
  }

  /**
   * A threshold passed in the config of one `analyze` call is the one a later
   * call without config classifies with.
   */
  lemma OverridePersists(attrs: seq<(string, Value)>, config: Value, t: real)
    requires config.Obj? && UniqueKeys(config.fields) && Lookup(config, "shadow_threshold") == Some(Num(t))
    ensures NumOr(Obj(Override(attrs, config.fields)), "shadow_threshold", 20.0) == t
  {
    OverrideGet(attrs, config.fields, "shadow_threshold");
  }

  /**
   * On measured gradients with a non-zero threshold, `analyze` reports a shadow
   * exactly when the intensity difference exceeds the threshold, and its score is
   * the classification's quality; the imaging failures and a zero threshold give
   * error results, scored 0.5 with one recommendation.
   */
  lemma AnalyzeOutcomes(threshold: real, input: ShadowInput)
    ensures var r := AnalyzeOutcome(threshold, input);
      && (input.Measured? && threshold != 0.0 ==>
            && r.error.None?
            && (r.shadowPresent <==> input.metrics.avgIntensityDiff > threshold)
            && GetScore(ToValue(r)) == ClassifyShadow(threshold, input.metrics).value.qualityScore)
      && (!input.Measured? || threshold == 0.0 ==>
            && r.error.Some? && GetScore(ToValue(r)) == 0.5 && |GetRecommendations(ToValue(r))| == 1)
  {
    var r := AnalyzeOutcome(threshold, input);
    ScoreOfResult(r);
    if input.Measured? && threshold != 0.0 {
      ClassificationFacts(threshold, input.metrics);
    }
  }
}
