// Foreign-object detection for document captures: clips and tools in the
// background, dark objects reaching into the document, shadows and
// reflections, and the combined verdict with its reasons, recommendations
// and impact band. The contour, mask and gradient numerics that OpenCV and
// numpy compute are inputs here (areas, bounding boxes, gradient variance,
// pixel overlaps, moments, pixel intensities, standard deviation).

module EnhancedForeignObjects {
  import opened Values
  import Stats
  import FormatIntegrity

  // ---------------------------------------------------------------------------
  // Configuration

  datatype ClipConfig = ClipConfig(
    minContourArea: real,
    maxBorderLuminance: real,
    pixelationThreshold: real,
    aspectMin: real,
    aspectMax: real,
    edgeProximity: int,
    /** The optional 'failure_threshold' key; the default configuration lacks it. */
    failureThreshold: Option<real>)

  datatype BlackConfig = BlackConfig(
    minDarknessThreshold: real,
    minObjectArea: real,
    documentPenetration: real,
    contrastRatio: real,
    shadowDetection: bool,
    failureThreshold: Option<real>)

  datatype FailureThresholds = FailureThresholds(
    clipAreaPct: real,
    blackObjectAreaPct: real,
    combinedAreaPct: real)

  datatype DetectorConfig = DetectorConfig(
    clip: ClipConfig,
    black: BlackConfig,
    failure: FailureThresholds)

  const DefaultConfig := DetectorConfig(
    ClipConfig(1000.0, 0.15, 0.3, 0.1, 10.0, 50, None),
    BlackConfig(0.1, 500.0, 0.05, 2.0, true, None),
    FailureThresholds(2.0, 1.0, 3.0))

  /** The clip flag threshold: the config's own key, else 2 %. */
  function ClipFlagThreshold(c: ClipConfig): (t: real)
    ensures c.failureThreshold.None? ==> t == 2.0
    ensures c.failureThreshold.Some? ==> t == c.failureThreshold.value
  {
    match c.failureThreshold
    case Some(v) => v
    case None => 2.0
  }

  /** The black-object flag threshold: the config's own key, else 1 %. */
  function BlackFlagThreshold(c: BlackConfig): (t: real)
    ensures c.failureThreshold.None? ==> t == 1.0
    ensures c.failureThreshold.Some? ==> t == c.failureThreshold.value
  {
    match c.failureThreshold
    case Some(v) => v
    case None => 1.0
  }

  /**
   * The per-detector flag thresholds actually used by the default
   * configuration come from the fallbacks, not from 'failure_thresholds'.
   */
  lemma DefaultFlagThresholds()
    ensures ClipFlagThreshold(DefaultConfig.clip) == 2.0
    ensures BlackFlagThreshold(DefaultConfig.black) == 1.0
    ensures DefaultConfig.failure.combinedAreaPct == 3.0
  {
  }

  // ---------------------------------------------------------------------------
  // Shared geometry

  /** A bounding rectangle `(x, y, w, h)` as cv2.boundingRect returns it. */
  datatype Box = Box(x: nat, y: nat, w: nat, h: nat)

  /** Width over height, and 0 for a box of zero height. */
  function AspectRatio(w: nat, h: nat): (a: real)
    ensures a >= 0.0
    ensures h == 0 ==> a == 0.0
    ensures h > 0 ==> a * h as real == w as real
  {
    if h > 0 then w as real / h as real else 0.0
  }

  /** A pixel intensity of an 8-bit channel. */
  type Gray = x: real | 0.0 <= x <= 255.0

  // ---------------------------------------------------------------------------
  // Clips and tools

  /** A background contour: its area, bounding box and the gradient variance around it. */
  datatype Contour = Contour(area: real, box: Box, gradientVariance: real)

  predicate NearEdge(proximity: int, b: Box, imgW: nat, imgH: nat)
  {
    b.x < proximity || b.y < proximity
    || b.x + b.w > imgW - proximity || b.y + b.h > imgH - proximity
  }

  const Margin: nat := 20

  /** A half-open pixel rectangle `[x1, x2) x [y1, y2)`. */
  datatype Region = Region(x1: int, y1: int, x2: int, y2: int)

  predicate EmptyRegion(r: Region)
  {
    r.x2 <= r.x1 || r.y2 <= r.y1
  }

  /** The box widened by the margin on every side and clamped to the image. */
  function PixelRegion(b: Box, imgW: nat, imgH: nat): (r: Region)
    ensures 0 <= r.x1 <= b.x && 0 <= r.y1 <= b.y
    ensures r.x2 <= imgW && r.y2 <= imgH
    ensures b.x >= Margin ==> r.x1 == b.x - Margin
    ensures b.y >= Margin ==> r.y1 == b.y - Margin
    ensures b.x + b.w + Margin <= imgW ==> r.x2 == b.x + b.w + Margin
    ensures b.y + b.h + Margin <= imgH ==> r.y2 == b.y + b.h + Margin
    ensures b.x + b.w <= imgW ==> b.x + b.w <= r.x2
    ensures b.y + b.h <= imgH ==> b.y + b.h <= r.y2
  {
    Region(IMax(0, b.x - Margin), IMax(0, b.y - Margin),
           IMin(imgW, b.x + b.w + Margin), IMin(imgH, b.y + b.h + Margin))
  }

  /** Gradient variance of the widened region, scaled by 1/1000 and capped at 1. */
  function PixelationScore(b: Box, imgW: nat, imgH: nat, variance: real): (s: real)
    ensures s <= 1.0
    ensures EmptyRegion(PixelRegion(b, imgW, imgH)) ==> s == 0.0
    ensures variance >= 0.0 ==> s >= 0.0
    ensures !EmptyRegion(PixelRegion(b, imgW, imgH)) && variance <= 1000.0 ==> s == variance / 1000.0
  {
    if EmptyRegion(PixelRegion(b, imgW, imgH)) then 0.0 else Min(variance / 1000.0, 1.0)
  }

  datatype Edge = Top | Bottom | Left | Right

  const TopName := "top"
  const BottomName := "bottom"
  const LeftName := "left"
  const RightName := "right"

  function EdgeName(e: Edge): string
  {
    match e
    case Top => TopName
    case Bottom => BottomName
    case Left => LeftName
    case Right => RightName
  }

  /** Position of an edge in the order the distances are listed. */
  function EdgeIndex(e: Edge): nat
  {
    match e
    case Top => 0
    case Bottom => 1
    case Left => 2
    case Right => 3
  }

  /** Distance from the box's integer centre to an edge of the image. */
  function EdgeDistance(e: Edge, b: Box, imgW: nat, imgH: nat): int
  {
    var cx := b.x + b.w / 2;
    var cy := b.y + b.h / 2;
    match e
    case Top => cy
    case Bottom => imgH - cy
    case Left => cx
    case Right => imgW - cx
  }

  /** The nearest edge; a tie goes to the edge listed first. */
  function EdgePosition(b: Box, imgW: nat, imgH: nat): (e: Edge)
    ensures forall e' :: EdgeDistance(e, b, imgW, imgH) <= EdgeDistance(e', b, imgW, imgH)
    ensures forall e' :: EdgeIndex(e') < EdgeIndex(e) ==>
      EdgeDistance(e', b, imgW, imgH) > EdgeDistance(e, b, imgW, imgH)
  {
    var e1 := if EdgeDistance(Bottom, b, imgW, imgH) < EdgeDistance(Top, b, imgW, imgH) then Bottom else Top;
    var e2 := if EdgeDistance(Left, b, imgW, imgH) < EdgeDistance(e1, b, imgW, imgH) then Left else e1;
    if EdgeDistance(Right, b, imgW, imgH) < EdgeDistance(e2, b, imgW, imgH) then Right else e2
  }

  /** The four acceptance conditions for a clip or tool. */
  predicate IsClip(cfg: ClipConfig, c: Contour, imgW: nat, imgH: nat)
  {
    && c.area >= cfg.minContourArea
    && NearEdge(cfg.edgeProximity, c.box, imgW, imgH)
    && cfg.aspectMin <= AspectRatio(c.box.w, c.box.h) <= cfg.aspectMax
    && PixelationScore(c.box, imgW, imgH, c.gradientVariance) > cfg.pixelationThreshold
  }

  datatype ClipInfo = ClipInfo(box: Box, area: real, aspectRatio: real, pixelationScore: real, position: Edge)

  function ClipOf(c: Contour, imgW: nat, imgH: nat): ClipInfo
  {
    ClipInfo(c.box, c.area, AspectRatio(c.box.w, c.box.h),
             PixelationScore(c.box, imgW, imgH, c.gradientVariance),
             EdgePosition(c.box, imgW, imgH))
  }

  function ClipTest(cfg: ClipConfig, imgW: nat, imgH: nat): Contour -> bool
  {
    c => IsClip(cfg, c, imgW, imgH)
  }

  function ClipMaker(imgW: nat, imgH: nat): Contour -> ClipInfo
  {
    c => ClipOf(c, imgW, imgH)
  }

  function ClipArea(c: ClipInfo): real { c.area }

  // ---------------------------------------------------------------------------
  // Selection loops, shared by both detectors

  /** The items of `xs` that pass `keep`, turned into records by `make`, in order. */
  function Selected<T, U>(keep: T -> bool, make: T -> U, xs: seq<T>): (r: seq<U>)
    ensures |r| <= |xs|
  {
    if xs == [] then []
    else
      var last := xs[|xs| - 1];
      Selected(keep, make, xs[..|xs| - 1]) + (if keep(last) then [make(last)] else [])
  }

  /** Every selected record comes from a kept item. */
  lemma {:induction false} SelectedSound<T, U>(keep: T -> bool, make: T -> U, xs: seq<T>)
    ensures forall k :: 0 <= k < |Selected(keep, make, xs)| ==>
      exists i :: 0 <= i < |xs| && keep(xs[i]) && Selected(keep, make, xs)[k] == make(xs[i])
  {
    if xs != [] {
      var n := |xs| - 1;
      var init := xs[..n];
      SelectedSound(keep, make, init);
      var r := Selected(keep, make, xs);
      var s := Selected(keep, make, init);
      assert r == s + (if keep(xs[n]) then [make(xs[n])] else []);
      forall k | 0 <= k < |r|
        ensures exists i :: 0 <= i < |xs| && keep(xs[i]) && r[k] == make(xs[i])
      {
        if k < |s| {
          assert r[k] == s[k];
          var i :| 0 <= i < |init| && keep(init[i]) && s[k] == make(init[i]);
          assert xs[i] == init[i];
          assert 0 <= i < |xs| && keep(xs[i]) && r[k] == make(xs[i]);
        } else {
          assert 0 <= n < |xs| && keep(xs[n]) && r[k] == make(xs[n]);
        }
      }
    } else {
      assert Selected(keep, make, xs) == [];
    }
  }

  /** Every kept item yields a record. */
  lemma {:induction false} SelectedComplete<T, U>(keep: T -> bool, make: T -> U, xs: seq<T>)
    ensures forall i :: 0 <= i < |xs| && keep(xs[i]) ==> make(xs[i]) in Selected(keep, make, xs)
  {
    if xs != [] {
      var n := |xs| - 1;
      var init := xs[..n];
      SelectedComplete(keep, make, init);
      var r := Selected(keep, make, xs);
      var s := Selected(keep, make, init);
      assert r == s + (if keep(xs[n]) then [make(xs[n])] else []);
      forall i | 0 <= i < |xs| && keep(xs[i])
        ensures make(xs[i]) in r
      {
        if i < n {
          assert init[i] == xs[i];
          assert make(xs[i]) in s;
        } else {
          assert r[|r| - 1] == make(xs[i]);
        }
      }
    }
  }

  /** The sum of `f` over `xs`, from the left. */
  function SumOf<T>(f: T -> real, xs: seq<T>): real
  {
    if xs == [] then 0.0 else SumOf(f, xs[..|xs| - 1]) + f(xs[|xs| - 1])
  }

  // ---------------------------------------------------------------------------
  // Clip detection

  datatype ClipResult = ClipResult(clips: seq<ClipInfo>, totalArea: real, areaPct: real, flag: bool)

  const DivisionByZero := "division by zero"

  /**
   * The clip detector's result: the accepted contours in order, their total
   * area as a percentage of the image (a division error for an image with
   * no pixels) and the flag.
   */
  function ClipDetection(cfg: ClipConfig, cs: seq<Contour>, imgW: nat, imgH: nat): (r: Result<ClipResult>)
    ensures r.Err? <==> imgW * imgH == 0
    ensures r.Ok? ==> r.value.clips == Selected(ClipTest(cfg, imgW, imgH), ClipMaker(imgW, imgH), cs)
    ensures r.Ok? ==> r.value.totalArea == SumOf(ClipArea, r.value.clips)
    ensures r.Ok? ==> r.value.areaPct * (imgW * imgH) as real == r.value.totalArea * 100.0
    ensures r.Ok? ==> (r.value.flag <==> r.value.areaPct > ClipFlagThreshold(cfg))
  {
    var clips := Selected(ClipTest(cfg, imgW, imgH), ClipMaker(imgW, imgH), cs);
    var total := SumOf(ClipArea, clips);
    if imgW * imgH == 0 then Err(DivisionByZero)
    else
      var pct := total / (imgW * imgH) as real * 100.0;
      ScaledQuotient(total, (imgW * imgH) as real);
      Ok(ClipResult(clips, total, pct, pct > ClipFlagThreshold(cfg)))
  }

  lemma ScaledQuotient(x: real, d: real)
    requires d != 0.0
    ensures x / d * 100.0 * d == x * 100.0
  {
    assert x / d * d == x;
  }

  /** The candidate loop: filter, record and accumulate the area. */
  method DetectClipsAndTools(cfg: ClipConfig, cs: seq<Contour>, imgW: nat, imgH: nat)
    returns (r: Result<ClipResult>)
    ensures r == ClipDetection(cfg, cs, imgW, imgH)
  {
    ghost var keep := ClipTest(cfg, imgW, imgH);
    ghost var make := ClipMaker(imgW, imgH);
    var clips: seq<ClipInfo> := [];
    var total := 0.0;
    var i := 0;
    while i < |cs|
      invariant 0 <= i <= |cs|
      invariant clips == Selected(keep, make, cs[..i])
      invariant total == SumOf(ClipArea, clips)
    {
      var c := cs[i];
      assert cs[..i + 1][..i] == cs[..i];
      if IsClip(cfg, c, imgW, imgH) {
        var prev := clips;
        clips := clips + [ClipOf(c, imgW, imgH)];
        assert clips[..|clips| - 1] == prev;
        total := total + c.area;
      }
      i := i + 1;
    }
    assert cs[..|cs|] == cs;
    if imgW * imgH == 0 {
      r := Err(DivisionByZero);
    } else {
      var pct := total / (imgW * imgH) as real * 100.0;
      r := Ok(ClipResult(clips, total, pct, pct > ClipFlagThreshold(cfg)));
    }
  }

  /** The four conditions, read off a recorded clip. */
  predicate MeetsClipConditions(cfg: ClipConfig, ci: ClipInfo, imgW: nat, imgH: nat)
  {
    && ci.area >= cfg.minContourArea
    && NearEdge(cfg.edgeProximity, ci.box, imgW, imgH)
    && cfg.aspectMin <= ci.aspectRatio <= cfg.aspectMax
    && ci.aspectRatio == AspectRatio(ci.box.w, ci.box.h)
    && ci.pixelationScore > cfg.pixelationThreshold
  }

  /**
   * A contour is recorded as a clip iff it meets all four conditions: every
   * record meets them, and every candidate meeting them is recorded.
   */
  lemma ClipAcceptance(cfg: ClipConfig, cs: seq<Contour>, imgW: nat, imgH: nat)
    ensures var r := Selected(ClipTest(cfg, imgW, imgH), ClipMaker(imgW, imgH), cs);
      forall k :: 0 <= k < |r| ==> MeetsClipConditions(cfg, r[k], imgW, imgH)
    ensures forall i :: 0 <= i < |cs| && IsClip(cfg, cs[i], imgW, imgH) ==>
      ClipOf(cs[i], imgW, imgH) in Selected(ClipTest(cfg, imgW, imgH), ClipMaker(imgW, imgH), cs)
  {
    var keep := ClipTest(cfg, imgW, imgH);
    var make := ClipMaker(imgW, imgH);
    SelectedSound(keep, make, cs);
    SelectedComplete(keep, make, cs);
    var r := Selected(keep, make, cs);
    forall k | 0 <= k < |r|
      ensures MeetsClipConditions(cfg, r[k], imgW, imgH)
    {
      var i :| 0 <= i < |cs| && keep(cs[i]) && r[k] == make(cs[i]);
      assert IsClip(cfg, cs[i], imgW, imgH);
    }
  }

  // ---------------------------------------------------------------------------
  // Black objects in the document

  /** Image moments m00, m10 and m01 of a contour. */
  datatype Moments = Moments(m00: real, m10: real, m01: real)

  /**
   * A dark contour inside the document: its area and box, the number of its
   * pixels inside the document mask, the intensities under it and in the ring
   * around it, its perimeter and moments.
   */
  datatype Blob = Blob(
    area: real,
    box: Box,
    overlap: real,
    objectPixels: seq<Gray>,
    surroundingPixels: seq<Gray>,
    perimeter: real,
    moments: Moments)

  /** Share of the contour's area inside the document, and 0 for a contour of no area. */
  function Penetration(overlap: real, area: real): (p: real)
    ensures area == 0.0 ==> p == 0.0
    ensures area != 0.0 ==> p * area == overlap
    ensures 0.0 <= overlap <= area ==> 0.0 <= p <= 1.0
  {
    if area == 0.0 then 0.0 else overlap / area
  }

  const Epsilon: real := 0.000001

  lemma MeanGray(xs: seq<Gray>)
    requires xs != []
    ensures 0.0 <= Stats.Mean(xs) <= 255.0
  {
    Stats.MeanBetween(xs, 0.0, 255.0);
  }

  /**
   * Mean of the surrounding ring over the mean of the object (plus a small
   * epsilon); 0 when either set of pixels is empty or the ring is black.
   */
  function LocalContrast(obj: seq<Gray>, surr: seq<Gray>): (c: real)
    ensures obj == [] || surr == [] ==> c == 0.0
    ensures obj != [] && surr != [] && Stats.Mean(surr) == 0.0 ==> c == 0.0
    ensures obj != [] && surr != [] && Stats.Mean(surr) != 0.0 ==>
      c * (Stats.Mean(obj) + Epsilon) == Stats.Mean(surr)
    ensures c >= 0.0
  {
    if obj == [] || surr == [] then 0.0
    else
      MeanGray(obj);
      MeanGray(surr);
      if Stats.Mean(surr) == 0.0 then 0.0
      else Stats.Mean(surr) / (Stats.Mean(obj) + Epsilon)
  }

  datatype BlackKind = UnknownObject | RoundObject | LinearObject | LargeObject | SmallObject

  const UnknownName := "unknown"
  const RoundName := "round_object"
  const LinearName := "linear_object"
  const LargeName := "large_object"
  const SmallName := "small_object"

  function KindName(k: BlackKind): string
  {
    match k
    case UnknownObject => UnknownName
    case RoundObject => RoundName
    case LinearObject => LinearName
    case LargeObject => LargeName
    case SmallObject => SmallName
  }

  const Pi: real := 3.141592653589793

  function Circularity(area: real, perimeter: real): real
    requires perimeter != 0.0
  {
    4.0 * Pi * area / (perimeter * perimeter)
  }

  /** The shape class of a black object, by the first rule that applies. */
  function ClassifyBlackObject(area: real, perimeter: real, w: nat, h: nat): (k: BlackKind)
    ensures k == UnknownObject <==> perimeter == 0.0
    ensures k == RoundObject <==> perimeter != 0.0 && Circularity(area, perimeter) > 0.7
    ensures k == LinearObject <==> (perimeter != 0.0 && Circularity(area, perimeter) <= 0.7
      && (AspectRatio(w, h) > 3.0 || AspectRatio(w, h) < 0.3))
    ensures k == LargeObject <==> (perimeter != 0.0 && Circularity(area, perimeter) <= 0.7
      && 0.3 <= AspectRatio(w, h) <= 3.0 && area > 5000.0)
    ensures k == SmallObject <==> (perimeter != 0.0 && Circularity(area, perimeter) <= 0.7
      && 0.3 <= AspectRatio(w, h) <= 3.0 && area <= 5000.0)
  {
    if perimeter == 0.0 then UnknownObject
    else if Circularity(area, perimeter) > 0.7 then RoundObject
    else
      var aspect := AspectRatio(w, h);
      if aspect > 3.0 then LinearObject
      else if aspect < 0.3 then LinearObject
      else if area > 5000.0 then LargeObject
      else SmallObject
  }

  /** A box of zero height or of zero width is never large or small: its aspect is 0. */
  lemma FlatObjectsAreLinear(area: real, perimeter: real, w: nat, h: nat)
    requires h == 0 || w == 0
    ensures ClassifyBlackObject(area, perimeter, w, h) in {UnknownObject, RoundObject, LinearObject}
  {
    if h > 0 {
      assert AspectRatio(w, h) == 0.0;
    }
  }

  /** The centroid `(int(m10/m00), int(m01/m00))`, and `(0, 0)` when m00 is 0. */
  function Centroid(m: Moments): (c: (int, int))
    ensures m.m00 == 0.0 ==> c == (0, 0)
    ensures m.m00 != 0.0 ==> c == (FormatIntegrity.TruncToInt(m.m10 / m.m00), FormatIntegrity.TruncToInt(m.m01 / m.m00))
    ensures m.m00 != 0.0 && m.m10 / m.m00 >= 0.0 ==> c.0 as real <= m.m10 / m.m00 < c.0 as real + 1.0
    ensures m.m00 != 0.0 && m.m01 / m.m00 >= 0.0 ==> c.1 as real <= m.m01 / m.m00 < c.1 as real + 1.0
  {
    if m.m00 != 0.0 then
      (FormatIntegrity.TruncToInt(m.m10 / m.m00), FormatIntegrity.TruncToInt(m.m01 / m.m00))
    else (0, 0)
  }

  predicate IsIntrusion(cfg: BlackConfig, b: Blob)
  {
    && b.area >= cfg.minObjectArea
    && Penetration(b.overlap, b.area) > cfg.documentPenetration
    && LocalContrast(b.objectPixels, b.surroundingPixels) > cfg.contrastRatio
  }

  datatype BlackObject = BlackObject(
    box: Box, area: real, penetration: real, contrast: real, kind: BlackKind, centroid: (int, int))

  function BlackObjectOf(b: Blob): BlackObject
  {
    BlackObject(b.box, b.area, Penetration(b.overlap, b.area),
                LocalContrast(b.objectPixels, b.surroundingPixels),
                ClassifyBlackObject(b.area, b.perimeter, b.box.w, b.box.h),
                Centroid(b.moments))
  }

  function IntrusionTest(cfg: BlackConfig): Blob -> bool
  {
    b => IsIntrusion(cfg, b)
  }

  function BlackMaker(): Blob -> BlackObject
  {
    b => BlackObjectOf(b)
  }

  function BlackArea(o: BlackObject): real { o.area }

  datatype BlackResult = BlackResult(objects: seq<BlackObject>, totalArea: real, areaPct: real, flag: bool)

  /**
   * The black-object detector's result: the accepted contours, their total
   * area as a percentage of the document (0 without a document) and the flag.
   */
  function BlackDetection(cfg: BlackConfig, blobs: seq<Blob>, docArea: nat): (r: BlackResult)
    ensures r.objects == Selected(IntrusionTest(cfg), BlackMaker(), blobs)
    ensures r.totalArea == SumOf(BlackArea, r.objects)
    ensures docArea == 0 ==> r.areaPct == 0.0
    ensures docArea > 0 ==> r.areaPct * docArea as real == r.totalArea * 100.0
    ensures r.flag <==> r.areaPct > BlackFlagThreshold(cfg)
  {
    var objects := Selected(IntrusionTest(cfg), BlackMaker(), blobs);
    var total := SumOf(BlackArea, objects);
    var pct := if docArea > 0 then total / docArea as real * 100.0 else 0.0;
    BlackResult(objects, total, pct, pct > BlackFlagThreshold(cfg))
  }

  /** The dark-contour loop: filter, classify, record and accumulate the area. */
  method DetectBlackObjects(cfg: BlackConfig, blobs: seq<Blob>, docArea: nat) returns (r: BlackResult)
    ensures r == BlackDetection(cfg, blobs, docArea)
  {
    ghost var keep := IntrusionTest(cfg);
    ghost var make := BlackMaker();
    var objects: seq<BlackObject> := [];
    var total := 0.0;
    var i := 0;
    while i < |blobs|
      invariant 0 <= i <= |blobs|
      invariant objects == Selected(keep, make, blobs[..i])
      invariant total == SumOf(BlackArea, objects)
    {
      var b := blobs[i];
      assert blobs[..i + 1][..i] == blobs[..i];
      if IsIntrusion(cfg, b) {
        var prev := objects;
        objects := objects + [BlackObjectOf(b)];
        assert objects[..|objects| - 1] == prev;
        total := total + b.area;
      }
      i := i + 1;
    }
    assert blobs[..|blobs|] == blobs;
    var pct := if docArea > 0 then total / docArea as real * 100.0 else 0.0;
    r := BlackResult(objects, total, pct, pct > BlackFlagThreshold(cfg));
  }

  /**
   * A dark contour is recorded iff it is large enough, reaches far enough
   * into the document and stands out from its surroundings.
   */
  lemma BlackAcceptance(cfg: BlackConfig, blobs: seq<Blob>)
    ensures var r := Selected(IntrusionTest(cfg), BlackMaker(), blobs);
      forall k :: 0 <= k < |r| ==>
        && r[k].area >= cfg.minObjectArea
        && r[k].penetration > cfg.documentPenetration
        && r[k].contrast > cfg.contrastRatio
    ensures forall i :: 0 <= i < |blobs| && IsIntrusion(cfg, blobs[i]) ==>
      BlackObjectOf(blobs[i]) in Selected(IntrusionTest(cfg), BlackMaker(), blobs)
  {
    SelectedSound(IntrusionTest(cfg), BlackMaker(), blobs);
    SelectedComplete(IntrusionTest(cfg), BlackMaker(), blobs);
  }

  // ---------------------------------------------------------------------------
  // Shadows and reflections

  datatype ShadowResult =
    | NoDocument
    | Measured(
        shadowArea: nat, shadowPct: real, shadowFlag: bool,
        reflectionArea: nat, reflectionPct: real, reflectionFlag: bool,
        average: real, stdDev: real, shadowThreshold: real, reflectionThreshold: real)

  function CountBelow(xs: seq<Gray>, t: real): (n: nat)
    ensures n <= |xs|
  {
    if xs == [] then 0
    else CountBelow(xs[..|xs| - 1], t) + (if xs[|xs| - 1] < t then 1 else 0)
  }

  function CountAbove(xs: seq<Gray>, t: real): (n: nat)
    ensures n <= |xs|
  {
    if xs == [] then 0
    else CountAbove(xs[..|xs| - 1], t) + (if xs[|xs| - 1] > t then 1 else 0)
  }

  /** No pixel is both below `lo` and above `hi` when `lo <= hi`. */
  lemma {:induction false} CountsDisjoint(xs: seq<Gray>, lo: real, hi: real)
    requires lo <= hi
    ensures CountBelow(xs, lo) + CountAbove(xs, hi) <= |xs|
  {
    if xs != [] {
      CountsDisjoint(xs[..|xs| - 1], lo, hi);
    }
  }

  /** `n` as a percentage of `total`. */
  function Percent(n: nat, total: nat): (p: real)
    requires 0 < total
    ensures p * total as real == n as real * 100.0
    ensures p >= 0.0
    ensures n <= total ==> p <= 100.0
  {
    PercentFacts(n, total);
    n as real / total as real * 100.0
  }

  lemma PercentFacts(n: nat, total: nat)
    requires 0 < total
    ensures n as real / total as real * 100.0 * total as real == n as real * 100.0
    ensures n <= total ==> n as real / total as real * 100.0 <= 100.0
  {
    var q := n as real / total as real;
    assert q * total as real == n as real;
    if n <= total {
      Stats.DivBetween(n as real, total as real, 0.0, 1.0);
    }
  }

  lemma PercentAdd(a: nat, b: nat, total: nat)
    requires 0 < total
    ensures Percent(a, total) + Percent(b, total) == Percent(a + b, total)
  {
    ScaledSum(Percent(a, total), Percent(b, total), Percent(a + b, total), a as real, b as real, total as real);
  }

  /** Three quantities scaled by the same positive factor: their sums agree. */
  lemma ScaledSum(pa: real, pb: real, pab: real, a: real, b: real, t: real)
    requires t > 0.0
    requires pa * t == a * 100.0 && pb * t == b * 100.0 && pab * t == (a + b) * 100.0
    ensures pa + pb == pab
  {
    assert (pa + pb - pab) * t == pa * t + pb * t - pab * t;
  }

  /**
   * Shadows are document pixels more than two standard deviations below the
   * mean, reflections more than two above; with no document pixels only the
   * two flags, both false, are reported.
   */
  function ShadowAnalysis(docPixels: seq<Gray>, std: real): (r: ShadowResult)
    ensures r.NoDocument? <==> docPixels == []
    ensures r.Measured? ==> r.average == Stats.Mean(docPixels)
    ensures r.Measured? ==> r.shadowThreshold == r.average - 2.0 * std
    ensures r.Measured? ==> r.reflectionThreshold == r.average + 2.0 * std
    ensures r.Measured? ==> r.shadowArea == CountBelow(docPixels, r.shadowThreshold)
    ensures r.Measured? ==> r.reflectionArea == CountAbove(docPixels, r.reflectionThreshold)
    ensures r.Measured? ==> 0.0 <= r.shadowPct <= 100.0 && 0.0 <= r.reflectionPct <= 100.0
    ensures r.Measured? ==> r.shadowPct == Percent(r.shadowArea, |docPixels|)
    ensures r.Measured? ==> r.reflectionPct == Percent(r.reflectionArea, |docPixels|)
    ensures r.Measured? ==> (r.shadowFlag <==> r.shadowPct > 3.0)
    ensures r.Measured? ==> (r.reflectionFlag <==> r.reflectionPct > 2.0)
  {
    if docPixels == [] then NoDocument
    else
      var avg := Stats.Mean(docPixels);
      var lo := avg - 2.0 * std;
      var hi := avg + 2.0 * std;
      var shadow := CountBelow(docPixels, lo);
      var reflection := CountAbove(docPixels, hi);
      var shadowPct := Percent(shadow, |docPixels|);
      var reflectionPct := Percent(reflection, |docPixels|);
      Measured(shadow, shadowPct, shadowPct > 3.0, reflection, reflectionPct, reflectionPct > 2.0,
               avg, std, lo, hi)
  }

  /** With a non-negative deviation, shadow and reflection never share a pixel. */
  lemma ShadowReflectionDisjoint(docPixels: seq<Gray>, std: real)
    requires docPixels != [] && std >= 0.0
    ensures var r := ShadowAnalysis(docPixels, std);
      r.shadowArea + r.reflectionArea <= |docPixels| && r.shadowPct + r.reflectionPct <= 100.0
  {
    var r := ShadowAnalysis(docPixels, std);
    CountsDisjoint(docPixels, r.shadowThreshold, r.reflectionThreshold);
    assert r.shadowPct == Percent(r.shadowArea, |docPixels|);
    assert r.reflectionPct == Percent(r.reflectionArea, |docPixels|);
    PercentAdd(r.shadowArea, r.reflectionArea, |docPixels|);
  }

  predicate ShadowFlag(s: ShadowResult) { s.Measured? && s.shadowFlag }

  predicate ReflectionFlag(s: ShadowResult) { s.Measured? && s.reflectionFlag }

  /** The shadow percentage, read as 0 when the document mask was empty. */
  function ShadowPct(s: ShadowResult): real
  {
    if s.Measured? then s.shadowPct else 0.0
  }

  function ReflectionPct(s: ShadowResult): real
  {
    if s.Measured? then s.reflectionPct else 0.0
  }

  // ---------------------------------------------------------------------------
  // Combination

  /** A failure reason and the percentage it reports. */
  datatype Reason =
    | ClipsCovering(pct: real)
    | BlackPenetrating(pct: real)
    | ShadowsCovering(pct: real)
    | ReflectionsAffecting(pct: real)

  function ReasonRank(r: Reason): nat
  {
    match r
    case ClipsCovering(_) => 0
    case BlackPenetrating(_) => 1
    case ShadowsCovering(_) => 2
    case ReflectionsAffecting(_) => 3
  }

  predicate HasReason(rs: seq<Reason>, rank: nat)
  {
    exists k :: 0 <= k < |rs| && ReasonRank(rs[k]) == rank
  }

  /** The reason `r` when its flag is raised, and nothing otherwise. */
  function Only(flag: bool, r: Reason): seq<Reason>
  {
    if flag then [r] else []
  }

  function FailureReasons(clip: ClipResult, black: BlackResult, shadow: ShadowResult): seq<Reason>
  {
    Only(clip.flag, ClipsCovering(clip.areaPct))
    + Only(black.flag, BlackPenetrating(black.areaPct))
    + Only(ShadowFlag(shadow), ShadowsCovering(ShadowPct(shadow)))
    + Only(ReflectionFlag(shadow), ReflectionsAffecting(ReflectionPct(shadow)))
  }

  /** The reasons come in the fixed order clip, black, shadow, reflection. */
  lemma ReasonOrder(clip: ClipResult, black: BlackResult, shadow: ShadowResult)
    ensures var rs := FailureReasons(clip, black, shadow);
      && |rs| <= 4
      && (forall i, j :: 0 <= i < j < |rs| ==> ReasonRank(rs[i]) < ReasonRank(rs[j]))
  {
    var a := Only(clip.flag, ClipsCovering(clip.areaPct));
    var b := Only(black.flag, BlackPenetrating(black.areaPct));
    var c := Only(ShadowFlag(shadow), ShadowsCovering(ShadowPct(shadow)));
    var d := Only(ReflectionFlag(shadow), ReflectionsAffecting(ReflectionPct(shadow)));
    var rs := FailureReasons(clip, black, shadow);
    assert rs == a + b + c + d;
    forall k | 0 <= k < |rs|
      ensures ReasonRank(rs[k]) == (if k < |a| then 0 else if k < |a| + |b| then 1
        else if k < |a| + |b| + |c| then 2 else 3)
    {
    }
  }

  /** Each reason is present iff its flag is raised. */
  lemma ReasonPresence(clip: ClipResult, black: BlackResult, shadow: ShadowResult)
    ensures var rs := FailureReasons(clip, black, shadow);
      && (HasReason(rs, 0) <==> clip.flag)
      && (HasReason(rs, 1) <==> black.flag)
      && (HasReason(rs, 2) <==> ShadowFlag(shadow))
      && (HasReason(rs, 3) <==> ReflectionFlag(shadow))
  {
    var a := Only(clip.flag, ClipsCovering(clip.areaPct));
    var b := Only(black.flag, BlackPenetrating(black.areaPct));
    var c := Only(ShadowFlag(shadow), ShadowsCovering(ShadowPct(shadow)));
    var d := Only(ReflectionFlag(shadow), ReflectionsAffecting(ReflectionPct(shadow)));
    var rs := FailureReasons(clip, black, shadow);
    assert rs == a + b + c + d;
    forall k | 0 <= k < |rs|
      ensures ReasonRank(rs[k]) == (if k < |a| then 0 else if k < |a| + |b| then 1
        else if k < |a| + |b| + |c| then 2 else 3)
    {
    }
    if clip.flag { assert ReasonRank(rs[0]) == 0; }
    if black.flag { assert ReasonRank(rs[|a|]) == 1; }
    if ShadowFlag(shadow) { assert ReasonRank(rs[|a| + |b|]) == 2; }
    if ReflectionFlag(shadow) { assert ReasonRank(rs[|a| + |b| + |c|]) == 3; }
  }

  const ClipLine1 := "\U{1F534} CRITICAL: Remove clips, tools, or holders from document area"
  const ClipLine2 := "\U{1F4CE} Use document scanner without physical restraints"
  const ClipLine3 := "\U{1F4F1} Consider using scanner apps that handle document edges automatically"
  const BlackLine1 := "\U{1F534} CRITICAL: Remove hands, fingers, or objects from document area"
  const BlackLine2 := "\U{1F44B} Keep hands away from document during capture"
  const BlackLine3 := "\U{1F4F8} Use timer mode or remote shutter to avoid hand interference"
  const ShadowLine1 := "\U{1F31E} Improve lighting to eliminate shadows on document"
  const ShadowLine2 := "\U{1F4A1} Use diffused lighting from multiple angles"
  const ShadowLine3 := "\U{1F4F1} Position camera directly above document to minimize shadows"
  const ReflectionLine1 := "\U{2728} Reduce reflections from document surface"
  const ReflectionLine2 := "\U{1F4D0} Adjust camera angle to avoid direct light reflection"
  const ReflectionLine3 := "\U{1F506} Use polarizing filter if available"

  const ClipLines := [ClipLine1, ClipLine2, ClipLine3]
  const BlackLines := [BlackLine1, BlackLine2, BlackLine3]
  const ShadowLines := [ShadowLine1, ShadowLine2, ShadowLine3]
  const ReflectionLines := [ReflectionLine1, ReflectionLine2, ReflectionLine3]

  /** The three lines of every raised flag, in the order clip, black, shadow, reflection. */
  function RecommendationLines(clip: ClipResult, black: BlackResult, shadow: ShadowResult): seq<string>
  {
    (if clip.flag then ClipLines else [])
    + (if black.flag then BlackLines else [])
    + (if ShadowFlag(shadow) then ShadowLines else [])
    + (if ReflectionFlag(shadow) then ReflectionLines else [])
  }

  /** The three recommendation lines that go with a reason. */
  function LinesFor(r: Reason): (ls: seq<string>)
    ensures |ls| == 3
  {
    match r
    case ClipsCovering(_) => ClipLines
    case BlackPenetrating(_) => BlackLines
    case ShadowsCovering(_) => ShadowLines
    case ReflectionsAffecting(_) => ReflectionLines
  }

  function AllLinesFor(rs: seq<Reason>): (ls: seq<string>)
    ensures |ls| == 3 * |rs|
  {
    if rs == [] then [] else AllLinesFor(rs[..|rs| - 1]) + LinesFor(rs[|rs| - 1])
  }

  lemma {:induction false} AllLinesAppend(a: seq<Reason>, b: seq<Reason>)
    ensures AllLinesFor(a + b) == AllLinesFor(a) + AllLinesFor(b)
    decreases |b|
  {
    if b != [] {
      var n := |b| - 1;
      assert (a + b)[..|a + b| - 1] == a + b[..n];
      AllLinesAppend(a, b[..n]);
    } else {
      assert a + b == a;
    }
  }

  lemma LinesOfOnly(flag: bool, r: Reason)
    ensures AllLinesFor(Only(flag, r)) == if flag then LinesFor(r) else []
  {
    if flag {
      assert Only(flag, r)[..0] == [];
    }
  }

  /**
   * The recommendations are exactly three lines per failure reason, in the
   * reasons' order.
   */
  lemma RecommendationsFollowReasons(clip: ClipResult, black: BlackResult, shadow: ShadowResult)
    ensures RecommendationLines(clip, black, shadow) == AllLinesFor(FailureReasons(clip, black, shadow))
    ensures |RecommendationLines(clip, black, shadow)| == 3 * |FailureReasons(clip, black, shadow)|
  {
    var a := Only(clip.flag, ClipsCovering(clip.areaPct));
    var b := Only(black.flag, BlackPenetrating(black.areaPct));
    var c := Only(ShadowFlag(shadow), ShadowsCovering(ShadowPct(shadow)));
    var d := Only(ReflectionFlag(shadow), ReflectionsAffecting(ReflectionPct(shadow)));
    AllLinesAppend(a + b + c, d);
    AllLinesAppend(a + b, c);
    AllLinesAppend(a, b);
    LinesOfOnly(clip.flag, ClipsCovering(clip.areaPct));
    LinesOfOnly(black.flag, BlackPenetrating(black.areaPct));
    LinesOfOnly(ShadowFlag(shadow), ShadowsCovering(ShadowPct(shadow)));
    LinesOfOnly(ReflectionFlag(shadow), ReflectionsAffecting(ReflectionPct(shadow)));
  }

  datatype Impact = Severe | High | Moderate | Low

  const SevereImpact := "SEVERE - Document unusable"
  const HighImpact := "HIGH - Significant quality degradation"
  const ModerateImpact := "MODERATE - Some quality loss"
  const LowImpact := "LOW - Minor impact on quality"

  function ImpactName(i: Impact): string
  {
    match i
    case Severe => SevereImpact
    case High => HighImpact
    case Moderate => ModerateImpact
    case Low => LowImpact
  }

  function ImpactRank(i: Impact): nat
  {
    match i
    case Low => 0
    case Moderate => 1
    case High => 2
    case Severe => 3
  }

  /** The impact band of a total coverage percentage. */
  function ImpactFor(coverage: real): (i: Impact)
    ensures i == Severe <==> coverage > 10.0
    ensures i == High <==> 5.0 < coverage <= 10.0
    ensures i == Moderate <==> 2.0 < coverage <= 5.0
    ensures i == Low <==> coverage <= 2.0
  {
    if coverage > 10.0 then Severe
    else if coverage > 5.0 then High
    else if coverage > 2.0 then Moderate
    else Low
  }

  /** More coverage never means a milder impact. */
  lemma ImpactMonotone(c1: real, c2: real)
    requires c1 <= c2
    ensures ImpactRank(ImpactFor(c1)) <= ImpactRank(ImpactFor(c2))
  {
  }

  /** Impact is judged on clip, black and shadow coverage together. */
  function QualityImpact(clip: ClipResult, black: BlackResult, shadow: ShadowResult): (i: Impact)
    ensures i == ImpactFor(clip.areaPct + black.areaPct + ShadowPct(shadow))
  {
    ImpactFor(clip.areaPct + black.areaPct + ShadowPct(shadow))
  }

  datatype Combined = Combined(
    flag: bool,
    areaPct: real,
    reasons: seq<Reason>,
    recommendations: seq<string>,
    clip: ClipResult,
    black: BlackResult,
    shadow: ShadowResult,
    totalObjects: nat,
    impact: Impact)

  /**
   * The combined verdict. The foreign-object flag is raised by clips, by
   * black objects or by their joint coverage, never by shadows or
   * reflections, which only add reasons and recommendations.
   */
  function CombineResults(cfg: FailureThresholds, clip: ClipResult, black: BlackResult, shadow: ShadowResult)
    : (c: Combined)
    ensures c.areaPct == clip.areaPct + black.areaPct
    ensures c.flag <==> clip.flag || black.flag || clip.areaPct + black.areaPct > cfg.combinedAreaPct
    ensures c.reasons == FailureReasons(clip, black, shadow)
    ensures c.recommendations == AllLinesFor(c.reasons)
    ensures c.totalObjects == |clip.clips| + |black.objects|
    ensures c.impact == ImpactFor(clip.areaPct + black.areaPct + ShadowPct(shadow))
    ensures c.clip == clip && c.black == black && c.shadow == shadow
  {
    RecommendationsFollowReasons(clip, black, shadow);
    var total := clip.areaPct + black.areaPct;
    Combined(
      clip.flag || black.flag || total > cfg.combinedAreaPct,
      total,
      FailureReasons(clip, black, shadow),
      RecommendationLines(clip, black, shadow),
      clip, black, shadow,
      |clip.clips| + |black.objects|,
      QualityImpact(clip, black, shadow))
  }

  /** Two shadow results never change the foreign-object flag or its area. */
  lemma ShadowsNeverFlag(cfg: FailureThresholds, clip: ClipResult, black: BlackResult, s1: ShadowResult, s2: ShadowResult)
    ensures CombineResults(cfg, clip, black, s1).flag == CombineResults(cfg, clip, black, s2).flag
    ensures CombineResults(cfg, clip, black, s1).areaPct == CombineResults(cfg, clip, black, s2).areaPct
  {
  }

  const ShadowPercentageKey := "'shadow_percentage'"

  /**
   * The combination as written: the impact assessment reads the shadow
   * percentage, which the empty-mask shadow result lacks.
   */
  function CombineAsWritten(cfg: FailureThresholds, clip: ClipResult, black: BlackResult, shadow: ShadowResult)
    : (r: Result<Combined>)
    ensures r.Err? <==> shadow.NoDocument?
    ensures r.Ok? ==> r.value == CombineResults(cfg, clip, black, shadow)
  {
    if shadow.NoDocument? then Err(ShadowPercentageKey)
    else Ok(CombineResults(cfg, clip, black, shadow))
  }

  /** An empty document mask makes the combination as written fail with a KeyError. */
  lemma EmptyMaskRaises(cfg: FailureThresholds, clip: ClipResult, black: BlackResult, std: real)
    ensures CombineAsWritten(cfg, clip, black, ShadowAnalysis([], std)) == Err(ShadowPercentageKey)
  {
  }

  /**
   * With the missing percentage read as 0, an empty mask combines: no shadow
   * or reflection reason, and the impact comes from clips and black objects.
   */
  lemma EmptyMaskCombines(cfg: FailureThresholds, clip: ClipResult, black: BlackResult, std: real)
    ensures var c := CombineResults(cfg, clip, black, ShadowAnalysis([], std));
      && !HasReason(c.reasons, 2) && !HasReason(c.reasons, 3)
      && c.impact == ImpactFor(clip.areaPct + black.areaPct)
  {
    ReasonPresence(clip, black, NoDocument);
  }

  // ---------------------------------------------------------------------------
  // Whole analysis

  /** What the pixel stage yields for one image and its document mask. */
  datatype Scene = Scene(
    width: nat,
    height: nat,
    clipCandidates: seq<Contour>,
    darkBlobs: seq<Blob>,
    docPixels: seq<Gray>,
    docStd: real)

  /**
   * The detector's result for one image. A zero-area image raises in the
   * clip detector; an empty document mask makes the combination raise the
   * KeyError of the missing shadow percentage.
   */
  function ForeignObjectAnalysis(cfg: DetectorConfig, s: Scene): (r: Result<Combined>)
    ensures r.Err? <==> s.width * s.height == 0 || s.docPixels == []
    ensures s.width * s.height == 0 ==> r == Err(DivisionByZero)
    ensures s.width * s.height != 0 && s.docPixels == [] ==> r == Err(ShadowPercentageKey)
    ensures r.Ok? ==> r.value == CombineResults(cfg.failure,
      ClipDetection(cfg.clip, s.clipCandidates, s.width, s.height).value,
      BlackDetection(cfg.black, s.darkBlobs, |s.docPixels|),
      ShadowAnalysis(s.docPixels, s.docStd))
  {
    match ClipDetection(cfg.clip, s.clipCandidates, s.width, s.height)
    case Err(e) => Err(e)
    case Ok(clip) =>
      CombineAsWritten(cfg.failure, clip,
        BlackDetection(cfg.black, s.darkBlobs, |s.docPixels|),
        ShadowAnalysis(s.docPixels, s.docStd))
  }

  /** The detector's entry point: clips, black objects, shadows, then the combination. */
  method AnalyzeForeignObjects(cfg: DetectorConfig, s: Scene) returns (r: Result<Combined>)
    ensures r == ForeignObjectAnalysis(cfg, s)
  {
    var clip := DetectClipsAndTools(cfg.clip, s.clipCandidates, s.width, s.height);
    var black := DetectBlackObjects(cfg.black, s.darkBlobs, |s.docPixels|);
    var shadow := ShadowAnalysis(s.docPixels, s.docStd);
    match clip
    case Err(e) =>
      r := Err(e);
    case Ok(c) =>
      r := CombineAsWritten(cfg.failure, c, black, shadow);
  }
}
