/**
 * Border and background control: the four margins between the document's box and
 * the frame, in pixels and as ratios of the document's width and height, and the
 * luminance of the background (the pixels the document mask leaves out).
 */
module BorderBackground {
  import opened Values
  import opened MaskUtils
  import Completeness

  datatype BorderResult = BorderResult(
    bgMedianLum: real,
    bgMeanLum: real,
    bgStd: real,
    leftRatio: real,
    rightRatio: real,
    topRatio: real,
    bottomRatio: real,
    marginsPx: Completeness.Margins)

  /** `a / d if d > 0 else 0.0`. */
  function RatioOr0(a: int, d: int): (r: real)
    ensures d > 0 ==> r * d as real == a as real
    ensures d <= 0 ==> r == 0.0
    ensures 0 <= a && 0 < d ==> r >= 0.0
  {
    if d > 0 then a as real / d as real else 0.0
  }

  /**
   * The luminance of the pixels where `1 - mask > 0`, in row-major order. The mask
   * is `uint8`, so `1 - v` wraps around modulo 256: only the cells holding 1 are left out.
   */
  function Background(lum: seq<seq<real>>, mask: seq<seq<int>>): (r: seq<real>)
    requires |lum| == |mask| && forall y :: 0 <= y < |mask| ==> |lum[y]| == |mask[y]|
  {
    if mask == [] then []
    else
      var n := |mask| - 1;
      Background(lum[..n], mask[..n]) + RowBackground(lum[n], mask[n])
  }

  function RowBackground(lum: seq<real>, mask: seq<int>): (r: seq<real>)
    requires |lum| == |mask|
    ensures |r| <= |mask|
    ensures r == [] <==> forall x :: 0 <= x < |mask| ==> (1 - mask[x]) % 256 == 0
  {
    if mask == [] then []
    else
      var n := |mask| - 1;
      assert forall x :: 0 <= x < n ==> mask[..n][x] == mask[x];
      RowBackground(lum[..n], mask[..n]) + (if (1 - mask[n]) % 256 > 0 then [lum[n]] else [])
  }

  /**
   * `BorderBackgroundMetrics.compute`. The median and standard deviation of the
   * background are numpy's (`median`, `std`); the mean is the model's own.
   */
  function Compute(lum: seq<seq<real>>, mask: seq<seq<int>>, w: nat, median: real, std: real): BorderResult
    requires |lum| == |mask| && forall y :: 0 <= y < |mask| ==> |lum[y]| == |mask[y]|
  {
    var h := |mask|;
    var b := DocumentBbox(mask, w);
    var docWidth := b.xMax - b.xMin;
    var docHeight := b.yMax - b.yMin;
    var bg := Background(lum, mask);
    var stats := if |bg| > 0 then (median, Sum(bg) / |bg| as real, std) else (0.0, 0.0, 0.0);
    BorderResult(stats.0, stats.1, stats.2,
                 RatioOr0(b.xMin, docWidth), RatioOr0(w - b.xMax, docWidth),
                 RatioOr0(b.yMin, docHeight), RatioOr0(h - b.yMax, docHeight),
                 Completeness.Margins(b.xMin, w - b.xMax, b.yMin, h - b.yMax))
  }

  /** The pixel margins are the completeness margins `(x_min, w - x_max, y_min, h - y_max)`. */
  lemma MarginsMatchCompleteness(lum: seq<seq<real>>, mask: seq<seq<int>>, w: nat, median: real, std: real,
                                 m: int)
    requires |lum| == |mask| && forall y :: 0 <= y < |mask| ==> |lum[y]| == |mask[y]|
    ensures Compute(lum, mask, w, median, std).marginsPx == Completeness.ComputeWithMargin(mask, w, m).margins
  {
  }

  /**
   * Each ratio is its pixel margin over the document's width (left, right) or height
   * (top, bottom), and 0.0 when that dimension is 0.
   */
  lemma RatiosMatchMargins(lum: seq<seq<real>>, mask: seq<seq<int>>, w: nat, median: real, std: real)
    requires |lum| == |mask| && forall y :: 0 <= y < |mask| ==> |lum[y]| == |mask[y]|
    ensures var r := Compute(lum, mask, w, median, std);
      var b := DocumentBbox(mask, w);
      var dw, dh := (b.xMax - b.xMin) as real, (b.yMax - b.yMin) as real;
      && (dw > 0.0 ==> r.leftRatio * dw == r.marginsPx.left as real && r.rightRatio * dw == r.marginsPx.right as real)
      && (dh > 0.0 ==> r.topRatio * dh == r.marginsPx.top as real && r.bottomRatio * dh == r.marginsPx.bottom as real)
      && (dw <= 0.0 ==> r.leftRatio == 0.0 && r.rightRatio == 0.0)
      && (dh <= 0.0 ==> r.topRatio == 0.0 && r.bottomRatio == 0.0)
  {
    var r := Compute(lum, mask, w, median, std);
    var b := DocumentBbox(mask, w);
    var h := |mask|;
    assert r.leftRatio == RatioOr0(b.xMin, b.xMax - b.xMin);
    assert r.rightRatio == RatioOr0(w - b.xMax, b.xMax - b.xMin);
    assert r.topRatio == RatioOr0(b.yMin, b.yMax - b.yMin);
    assert r.bottomRatio == RatioOr0(h - b.yMax, b.yMax - b.yMin);
  }

  /** All four ratios are non-negative. */
  lemma RatiosNonNegative(lum: seq<seq<real>>, mask: seq<seq<int>>, w: nat, median: real, std: real)
    requires |lum| == |mask| && Rect(mask, w)
    requires forall y :: 0 <= y < |mask| ==> |lum[y]| == |mask[y]|
    ensures var r := Compute(lum, mask, w, median, std);
      r.leftRatio >= 0.0 && r.rightRatio >= 0.0 && r.topRatio >= 0.0 && r.bottomRatio >= 0.0
  {
    if exists y, x :: On(mask, y, x) {
      var y, x :| On(mask, y, x);
      BboxIsExtent(mask, w, y, x);
    }
  }

  lemma {:induction false} NoBackground(lum: seq<seq<real>>, mask: seq<seq<int>>)
    requires |lum| == |mask| && forall y :: 0 <= y < |mask| ==> |lum[y]| == |mask[y]|
    requires forall y, x :: 0 <= y < |mask| && 0 <= x < |mask[y]| ==> mask[y][x] == 1
    ensures Background(lum, mask) == []
  {
    if mask != [] {
      var n := |mask| - 1;
      NoBackground(lum[..n], mask[..n]);
    }
  }

  /** With no background pixel (the document fills the frame), the three statistics are 0.0. */
  lemma NoBackgroundStats(lum: seq<seq<real>>, mask: seq<seq<int>>, w: nat, median: real, std: real)
    requires |lum| == |mask| && forall y :: 0 <= y < |mask| ==> |lum[y]| == |mask[y]|
    requires forall y, x :: 0 <= y < |mask| && 0 <= x < |mask[y]| ==> mask[y][x] == 1
    ensures var r := Compute(lum, mask, w, median, std);
      r.bgMedianLum == 0.0 && r.bgMeanLum == 0.0 && r.bgStd == 0.0
  {
    NoBackground(lum, mask);
  }

  lemma {:induction false} SumBounds(xs: seq<real>)
    requires forall i :: 0 <= i < |xs| ==> 0.0 <= xs[i] <= 1.0
    ensures 0.0 <= Sum(xs) <= |xs| as real
  {
    if xs != [] {
      SumBounds(xs[..|xs| - 1]);
    }
  }

  lemma {:induction false} RowBackgroundIn(lum: seq<real>, mask: seq<int>)
    requires |lum| == |mask|
    requires forall x :: 0 <= x < |lum| ==> 0.0 <= lum[x] <= 1.0
    ensures forall i :: 0 <= i < |RowBackground(lum, mask)| ==> 0.0 <= RowBackground(lum, mask)[i] <= 1.0
  {
    if mask != [] {
      RowBackgroundIn(lum[..|mask| - 1], mask[..|mask| - 1]);
    }
  }

  lemma {:induction false} BackgroundIn(lum: seq<seq<real>>, mask: seq<seq<int>>)
    requires |lum| == |mask| && forall y :: 0 <= y < |mask| ==> |lum[y]| == |mask[y]|
    requires forall y, x :: 0 <= y < |lum| && 0 <= x < |lum[y]| ==> 0.0 <= lum[y][x] <= 1.0
    ensures forall i :: 0 <= i < |Background(lum, mask)| ==> 0.0 <= Background(lum, mask)[i] <= 1.0
  {
    if mask != [] {
      var n := |mask| - 1;
      BackgroundIn(lum[..n], mask[..n]);
      RowBackgroundIn(lum[n], mask[n]);
    }
  }

  /** For a luminance image (values in [0, 1]) the background mean lies in [0, 1]. */
  lemma MeanBounds(lum: seq<seq<real>>, mask: seq<seq<int>>, w: nat, median: real, std: real)
    requires |lum| == |mask| && forall y :: 0 <= y < |mask| ==> |lum[y]| == |mask[y]|
    requires forall y, x :: 0 <= y < |lum| && 0 <= x < |lum[y]| ==> 0.0 <= lum[y][x] <= 1.0
    ensures 0.0 <= Compute(lum, mask, w, median, std).bgMeanLum <= 1.0
  {
    var bg := Background(lum, mask);
    if |bg| > 0 {
      BackgroundIn(lum, mask);
      SumBounds(bg);
      assert Sum(bg) / |bg| as real <= 1.0;
    }
  }
}
