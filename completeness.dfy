/**
 * Completeness of the capture: how much of the frame the document's bounding box
 * covers, whether it touches the frame's edges, its margins, the edge strips that
 * hold document pixels and its aspect ratio. The image and its document mask share
 * the shape `(h, w)`, with `h == |mask|`.
 */
module Completeness {
  import opened Values
  import opened MaskUtils
  import Scoring

  datatype Margins = Margins(left: int, right: int, top: int, bottom: int)

  datatype EdgeViolations = EdgeViolations(left: bool, right: bool, top: bool, bottom: bool)

  datatype CompletenessResult = CompletenessResult(
    coverage: real,
    edgeTouch: bool,
    margins: Margins,
    violations: EdgeViolations,
    bbox: Bbox,
    width: int,
    height: int,
    aspectRatio: real)

  const MarginKey: string := "min_margin_px"
  const CompareTypeError: string := "TypeError: '<=' not supported between instances"
  const SliceTypeError: string := "TypeError: slice indices must be integers or None or have an __index__ method"
  const GetAttributeError: string := "AttributeError: object has no attribute 'get'"

  /**
   * `config.get('min_margin_px', 8)` as the edge tests and the strip slices take it:
   * an int, a bool counting as 0 or 1. Any other value fails the first comparison
   * of the edge test; a number with a fractional part passes the comparisons and
   * fails the first slice.
   */
  function MinMarginPx(config: Value): Result<int>
  {
    if !config.Obj? then Err(GetAttributeError)
    else
    match Lookup(config, MarginKey)
    case None => Ok(8)
    case Some(Num(n)) => if n == n.Floor as real then Ok(n.Floor) else Err(SliceTypeError)
    case Some(Bool(b)) => Ok(if b then 1 else 0)
    case Some(_) => Err(CompareTypeError)
  }

  /**
   * A margin the config spells as a whole number is read as that number, and 8
   * when a dict config has none; a config that is not a dict has no `get`.
   */
  lemma MarginReads(config: Value, m: int)
    ensures !config.Obj? ==> MinMarginPx(config) == Err(GetAttributeError)
    ensures config.Obj? && Lookup(config, MarginKey).None? ==> MinMarginPx(config) == Ok(8)
    ensures Lookup(config, MarginKey) == Some(Num(m as real)) ==> MinMarginPx(config) == Ok(m)
    ensures Lookup(config, MarginKey) == Some(Bool(true)) ==> MinMarginPx(config) == Ok(1)
  {
    assert (m as real).Floor == m;
  }

  /** A margin that is neither a whole number nor a bool raises, and a fractional one only at the slices. */
  lemma MarginRaises(config: Value, x: real)
    requires x != x.Floor as real
    ensures Lookup(config, MarginKey) == Some(Num(x)) ==> MinMarginPx(config) == Err(SliceTypeError)
    ensures Lookup(config, MarginKey) == Some(Null) ==> MinMarginPx(config) == Err(CompareTypeError)
    ensures (exists s :: Lookup(config, MarginKey) == Some(Str(s))) ==> MinMarginPx(config) == Err(CompareTypeError)
  {
  }

  /** Python's reading of a slice bound `i` on an axis of length `n`. */
  function SliceBound(i: int, n: nat): (r: nat)
    ensures r <= n
  {
    if i < 0 then IMax(0, n + i) else IMin(i, n)
  }

  /** `np.any(mask[r0:r1, c0:c1] > 0)`. */
  predicate AnyIn(mask: seq<seq<int>>, r0: int, r1: int, c0: int, c1: int)
  {
    exists y, x :: r0 <= y < r1 && c0 <= x < c1 && On(mask, y, x)
  }

  /**
   * `_check_content_near_edges`: the strips `[:, :margin]`, `[:, -margin:]`,
   * `[:margin, :]` and `[-margin:, :]`. For `margin == 0`, `-0:` is the whole axis.
   */
  function CheckContentNearEdges(mask: seq<seq<int>>, w: nat, margin: int): EdgeViolations
  {
    var h := |mask|;
    EdgeViolations(
      AnyIn(mask, 0, h, 0, SliceBound(margin, w)),
      AnyIn(mask, 0, h, SliceBound(-margin, w), w),
      AnyIn(mask, 0, SliceBound(margin, h), 0, w),
      AnyIn(mask, SliceBound(-margin, h), h, 0, w))
  }

  /**
   * `CompletenessMetrics.compute`: the margin read from the config, then the
   * measures of `ComputeWithMargin`. A margin the edge tests or the slices cannot
   * take makes it raise.
   */
  function Compute(mask: seq<seq<int>>, w: nat, config: Value): (r: Result<CompletenessResult>)
    ensures r.Err? <==> var v := Lookup(config, MarginKey);
      !config.Obj? || (v.Some? && !v.value.Bool? && !(v.value.Num? && v.value.n == v.value.n.Floor as real))
    ensures !config.Obj? ==> r == Err(GetAttributeError)
    ensures config.Obj? && Lookup(config, MarginKey).None? ==> r == Ok(ComputeWithMargin(mask, w, 8))
    ensures forall m: int :: Lookup(config, MarginKey) == Some(Num(m as real)) ==> r == Ok(ComputeWithMargin(mask, w, m))
    ensures forall b :: Lookup(config, MarginKey) == Some(Bool(b)) ==> r == Ok(ComputeWithMargin(mask, w, if b then 1 else 0))
  {
    match MinMarginPx(config)
    case Err(e) => Err(e)
    case Ok(m) => Ok(ComputeWithMargin(mask, w, m))
  }

  /** What `compute` measures once the margin `m` is read. */
  function ComputeWithMargin(mask: seq<seq<int>>, w: nat, m: int): (r: CompletenessResult)
    ensures r.bbox == DocumentBbox(mask, w)
    ensures r.margins == Margins(r.bbox.xMin, w - r.bbox.xMax, r.bbox.yMin, |mask| - r.bbox.yMax)
    ensures r.edgeTouch <==> r.bbox.xMin <= m || r.bbox.yMin <= m || r.bbox.xMax >= w - m || r.bbox.yMax >= |mask| - m
    ensures r.violations == CheckContentNearEdges(mask, w, m)
    ensures |mask| * w == 0 ==> r.coverage == 0.0
    ensures r.height == 0 ==> r.aspectRatio == 0.0
  {
    var h := |mask|;
    var area := h * w;
    var b := DocumentBbox(mask, w);
    var docArea := (b.xMax - b.xMin) * (b.yMax - b.yMin);
    var coverage := if area > 0 then docArea as real / area as real else 0.0;
    var edgeTouch := b.xMin <= m || b.yMin <= m || b.xMax >= w - m || b.yMax >= h - m;
    var width := b.xMax - b.xMin;
    var height := b.yMax - b.yMin;
    CompletenessResult(
      coverage, edgeTouch,
      Margins(b.xMin, w - b.xMax, b.yMin, h - b.yMax),
      CheckContentNearEdges(mask, w, m),
      b, width, height,
      if height > 0 then width as real / height as real else 0.0)
  }

  const CoverageKey: string := "content_bbox_coverage"
  const EdgeTouchKey: string := "edge_touch_flag"

  /** The metrics dict the scorer reads. */
  function ToValue(r: CompletenessResult): Value
  {
    Obj([
      (CoverageKey, Num(r.coverage)),
      (EdgeTouchKey, Bool(r.edgeTouch)),
      ("margins", Obj([("left_px", Num(r.margins.left as real)), ("right_px", Num(r.margins.right as real)),
                       ("top_px", Num(r.margins.top as real)), ("bottom_px", Num(r.margins.bottom as real))])),
      ("edge_violations", Obj([("left_violation", Bool(r.violations.left)),
                               ("right_violation", Bool(r.violations.right)),
                               ("top_violation", Bool(r.violations.top)),
                               ("bottom_violation", Bool(r.violations.bottom))])),
      ("document_bbox", Obj([("x_min", Num(r.bbox.xMin as real)), ("y_min", Num(r.bbox.yMin as real)),
                             ("x_max", Num(r.bbox.xMax as real)), ("y_max", Num(r.bbox.yMax as real)),
                             ("width", Num(r.width as real)), ("height", Num(r.height as real)),
                             ("aspect_ratio", Num(r.aspectRatio))]))
    ])
  }

  lemma RatioBounds(a: int, b: int)
    requires 0 <= a <= b && 0 < b
    ensures 0.0 <= a as real / b as real <= 1.0
  {
  }

  /** All four margins are non-negative, for an empty mask as for any other. */
  lemma MarginsNonNegative(mask: seq<seq<int>>, w: nat, m: int)
    requires Rect(mask, w)
    ensures var g := ComputeWithMargin(mask, w, m).margins;
      g.left >= 0 && g.right >= 0 && g.top >= 0 && g.bottom >= 0
  {
    if exists y, x :: On(mask, y, x) {
      var y, x :| On(mask, y, x);
      BboxIsExtent(mask, w, y, x);
    }
  }

  /** The coverage lies in [0, 1]. */
  lemma CoverageBounds(mask: seq<seq<int>>, w: nat, m: int)
    requires Rect(mask, w)
    ensures 0.0 <= ComputeWithMargin(mask, w, m).coverage <= 1.0
  {
    var h := |mask|;
    var b := DocumentBbox(mask, w);
    if h * w > 0 {
      var dx, dy := b.xMax - b.xMin, b.yMax - b.yMin;
      if exists y, x :: On(mask, y, x) {
        var y, x :| On(mask, y, x);
        BboxIsExtent(mask, w, y, x);
      }
      assert 0 <= dx <= w && 0 <= dy <= h;
      MulMono(dx, w, dy);
      MulMono(dy, h, w);
      assert 0 <= dx * dy <= h * w;
      RatioBounds(dx * dy, h * w);
    }
  }

  /**
   * An empty mask gives the whole frame as its box, which touches the edges for any
   * non-negative margin, so the scorer marks completeness FAIL.
   */
  lemma EmptyMaskFails(mask: seq<seq<int>>, w: nat, m: int, cfg: Value)
    requires forall y :: 0 <= y < |mask| ==> forall x :: 0 <= x < |mask[y]| ==> mask[y][x] <= 0
    requires m >= 0
    ensures ComputeWithMargin(mask, w, m).edgeTouch
    ensures Scoring.ScoreCompleteness(ToValue(ComputeWithMargin(mask, w, m)), cfg) == Scoring.Fail
  {
    EmptyMaskBbox(mask, w);
    var v := ToValue(ComputeWithMargin(mask, w, m));
    assert v.fields[0].0 != EdgeTouchKey by { assert CoverageKey[0] != EdgeTouchKey[0]; }
    assert v.fields[1..][0] == (EdgeTouchKey, Bool(true));
    assert Get(v.fields[1..], EdgeTouchKey) == Some(Bool(true));
    assert Lookup(v, EdgeTouchKey) == Some(Bool(true));
  }

  /**
   * With a positive margin, a strip holds a document pixel exactly when the box
   * reaches into it: left `x_min < m`, right `x_max >= w - m`, top `y_min < m`,
   * bottom `y_max >= h - m`. (The edge-touch flag uses `<=` on the left and top.)
   */
  lemma StripsMatchBbox(mask: seq<seq<int>>, w: nat, margin: int, y: int, x: int)
    requires Rect(mask, w) && On(mask, y, x) && margin > 0
    ensures var v := CheckContentNearEdges(mask, w, margin); var b := DocumentBbox(mask, w);
      && (v.left <==> b.xMin < margin)
      && (v.right <==> b.xMax >= w - margin)
      && (v.top <==> b.yMin < margin)
      && (v.bottom <==> b.yMax >= |mask| - margin)
  {
    BboxIsExtent(mask, w, y, x);
    var b := DocumentBbox(mask, w);
    var h := |mask|;
    var v := CheckContentNearEdges(mask, w, margin);
    var y1 :| On(mask, y1, b.xMin);
    var y2 :| On(mask, y2, b.xMax);
    var x1 :| On(mask, b.yMin, x1);
    var x2 :| On(mask, b.yMax, x2);
    if b.xMin < margin { assert 0 <= y1 < h && 0 <= b.xMin < SliceBound(margin, w); }
    if b.xMax >= w - margin { assert SliceBound(-margin, w) <= b.xMax < w; }
    if b.yMin < margin { assert 0 <= b.yMin < SliceBound(margin, h) && 0 <= x1 < w; }
    if b.yMax >= h - margin { assert SliceBound(-margin, h) <= b.yMax < h; }
  }

  /**
   * With margin 0 the left and top strips are empty, but `-0:` makes the right and
   * bottom strips the whole mask: both are flagged as soon as any pixel is set.
   */
  lemma ZeroMarginStrips(mask: seq<seq<int>>, w: nat)
    requires Rect(mask, w)
    ensures var v := CheckContentNearEdges(mask, w, 0);
      && !v.left && !v.top
      && (v.right <==> exists y, x :: On(mask, y, x))
      && (v.bottom <==> exists y, x :: On(mask, y, x))
  {
  }
}
