/**
 * Exposure metrics: clipping of the document's pixels, illumination uniformity
 * over 64-pixel tiles, brightness statistics, dynamic range, the background's
 * brightness, and the illumination map drawn for visualisation. `lum` is the
 * luminance image and `mask` the document mask, both `h` rows of `w` cells.
 */
module Exposure {
  import opened Values
  import opened MaskUtils
  import opened Stats
  import BorderBackground
  import Scoring

  /** The luminance image and the mask share the shape `(h, w)`. */
  predicate SameShape(lum: seq<seq<real>>, mask: seq<seq<int>>, w: nat)
  {
    |lum| == |mask| && Rect(mask, w) && forall y :: 0 <= y < |lum| ==> |lum[y]| == w
  }

  // ---------------------------------------------------------------------------
  // The document's pixels and their clipping

  /** `(luminance * doc_mask)[doc_mask > 0]` for one row. */
  function RowDocPixels(lum: seq<real>, mask: seq<int>): (r: seq<real>)
    requires |lum| == |mask|
    ensures |r| <= |mask|
  {
    if mask == [] then []
    else
      var n := |mask| - 1;
      RowDocPixels(lum[..n], mask[..n]) + (if mask[n] > 0 then [lum[n] * mask[n] as real] else [])
  }

  /** `(luminance * doc_mask)[doc_mask > 0]`, in row-major order. */
  function DocPixels(lum: seq<seq<real>>, mask: seq<seq<int>>): seq<real>
    requires |lum| == |mask| && forall y :: 0 <= y < |mask| ==> |lum[y]| == |mask[y]|
  {
    if mask == [] then []
    else
      var n := |mask| - 1;
      DocPixels(lum[..n], mask[..n]) + RowDocPixels(lum[n], mask[n])
  }

  /** No cell of the row is positive. */
  predicate RowOff(row: seq<int>)
  {
    forall x :: 0 <= x < |row| ==> row[x] <= 0
  }

  lemma {:induction false} RowDocPixelsEmpty(lum: seq<real>, mask: seq<int>)
    requires |lum| == |mask|
    ensures RowDocPixels(lum, mask) == [] <==> RowOff(mask)
  {
    if mask != [] {
      var n := |mask| - 1;
      RowDocPixelsEmpty(lum[..n], mask[..n]);
      assert forall x :: 0 <= x < n ==> mask[..n][x] == mask[x];
    }
  }

  /** There are no document pixels exactly when no mask cell is positive. */
  lemma {:induction false} DocPixelsEmpty(lum: seq<seq<real>>, mask: seq<seq<int>>)
    requires |lum| == |mask| && forall y :: 0 <= y < |mask| ==> |lum[y]| == |mask[y]|
    ensures DocPixels(lum, mask) == [] <==> forall y :: 0 <= y < |mask| ==> RowOff(mask[y])
  {
    if mask != [] {
      var n := |mask| - 1;
      DocPixelsEmpty(lum[..n], mask[..n]);
      RowDocPixelsEmpty(lum[n], mask[n]);
      assert forall y :: 0 <= y < n ==> mask[..n][y] == mask[y];
    }
  }

  /** The number of values at most `t`. */
  function CountAtMost(xs: seq<real>, t: real): (r: nat)
    ensures r <= |xs|
  {
    if xs == [] then 0 else CountAtMost(xs[..|xs| - 1], t) + (if xs[|xs| - 1] <= t then 1 else 0)
  }

  /** The number of values at least `t`. */
  function CountAtLeast(xs: seq<real>, t: real): (r: nat)
    ensures r <= |xs|
  {
    if xs == [] then 0 else CountAtLeast(xs[..|xs| - 1], t) + (if xs[|xs| - 1] >= t then 1 else 0)
  }

  datatype Clipping = Clipping(
    shadowClipPct: real, highlightClipPct: real,
    shadowClipped: nat, highlightClipped: nat, totalPixels: nat)

  /** `_analyze_clipping`, with its thresholds (0.0 and 1.0 when `compute` calls it). */
  function AnalyzeClipping(pixels: seq<real>, shadowThreshold: real, highlightThreshold: real): Clipping
    requires pixels != []
  {
    var n := |pixels|;
    var s, hl := CountAtMost(pixels, shadowThreshold), CountAtLeast(pixels, highlightThreshold);
    Clipping(s as real / n as real * 100.0, hl as real / n as real * 100.0, s, hl, n)
  }

  lemma PercentBounds(k: nat, n: nat)
    requires k <= n && n > 0
    ensures 0.0 <= k as real / n as real * 100.0 <= 100.0
  {
    DivBetween(k as real, n as real, 0.0, 1.0);
  }

  /** The clipped counts never exceed the total, and both percentages lie in [0, 100]. */
  lemma ClippingBounds(pixels: seq<real>, shadowThreshold: real, highlightThreshold: real)
    requires pixels != []
    ensures var c := AnalyzeClipping(pixels, shadowThreshold, highlightThreshold);
      && c.totalPixels == |pixels|
      && c.shadowClipped <= c.totalPixels && c.highlightClipped <= c.totalPixels
      && 0.0 <= c.shadowClipPct <= 100.0 && 0.0 <= c.highlightClipPct <= 100.0
  {
    var c := AnalyzeClipping(pixels, shadowThreshold, highlightThreshold);
    PercentBounds(c.shadowClipped, |pixels|);
    PercentBounds(c.highlightClipped, |pixels|);
  }

  /** Below one threshold and above a higher one are disjoint: the two counts add up to at most the total. */
  lemma {:induction false} CountsDisjoint(xs: seq<real>, lo: real, hi: real)
    requires lo < hi
    ensures CountAtMost(xs, lo) + CountAtLeast(xs, hi) <= |xs|
  {
    if xs != [] {
      CountsDisjoint(xs[..|xs| - 1], lo, hi);
    }
  }

  lemma PercentAdd(a: real, b: real, n: real)
    requires n > 0.0
    ensures a / n * 100.0 + b / n * 100.0 == (a + b) / n * 100.0
  {
  }

  /** With the thresholds `compute` uses, shadow and highlight percentages add up to at most 100. */
  lemma ClippingSumBounded(pixels: seq<real>)
    requires pixels != []
    ensures var c := AnalyzeClipping(pixels, 0.0, 1.0);
      c.shadowClipped + c.highlightClipped <= c.totalPixels && c.shadowClipPct + c.highlightClipPct <= 100.0
  {
    var c := AnalyzeClipping(pixels, 0.0, 1.0);
    CountsDisjoint(pixels, 0.0, 1.0);
    PercentBounds(c.shadowClipped + c.highlightClipped, |pixels|);
    PercentAdd(c.shadowClipped as real, c.highlightClipped as real, |pixels| as real);
  }

  // ---------------------------------------------------------------------------
  // Tiles: sums and pixels of `luminance[y1:y2, x1:x2]`, `doc_mask[y1:y2, x1:x2]`

  /** The sum of `row[x1:x2]`. */
  function RowSum(row: seq<int>, x1: nat, x2: int): int
    requires x2 <= |row|
    decreases x2 - x1
  {
    if x2 <= x1 then 0 else RowSum(row, x1, x2 - 1) + row[x2 - 1]
  }

  /** The sum of `mask[y1:y2, x1:x2]`, for bounds already inside the frame. */
  function CellsSum(mask: seq<seq<int>>, w: nat, y1: nat, y2: int, x1: nat, x2: int): int
    requires Rect(mask, w) && y2 <= |mask| && x2 <= w
    decreases y2 - y1
  {
    if y2 <= y1 then 0 else CellsSum(mask, w, y1, y2 - 1, x1, x2) + RowSum(mask[y2 - 1], x1, x2)
  }

  /** The luminance of the cells of `row[x1:x2]` whose mask value is positive. */
  function RowValid(lum: seq<real>, mask: seq<int>, x1: nat, x2: int): seq<real>
    requires |lum| == |mask| && x2 <= |mask|
    decreases x2 - x1
  {
    if x2 <= x1 then []
    else RowValid(lum, mask, x1, x2 - 1) + (if mask[x2 - 1] > 0 then [lum[x2 - 1]] else [])
  }

  /** `tile_luminance[tile_mask > 0]`, for bounds already inside the frame. */
  function CellsValid(lum: seq<seq<real>>, mask: seq<seq<int>>, w: nat, y1: nat, y2: int, x1: nat, x2: int)
    : seq<real>
    requires SameShape(lum, mask, w) && y2 <= |mask| && x2 <= w
    decreases y2 - y1
  {
    if y2 <= y1 then []
    else CellsValid(lum, mask, w, y1, y2 - 1, x1, x2) + RowValid(lum[y2 - 1], mask[y2 - 1], x1, x2)
  }

  /** Python's clipping of a non-negative slice bound to a length. */
  function Clip(a: int, n: nat): nat
  {
    if a < 0 then 0 else if a > n then n else a
  }

  function TileSum(mask: seq<seq<int>>, w: nat, t: Tile): int
    requires Rect(mask, w)
  {
    CellsSum(mask, w, Clip(t.y1, |mask|), Clip(t.y2, |mask|), Clip(t.x1, w), Clip(t.x2, w))
  }

  function TileValid(lum: seq<seq<real>>, mask: seq<seq<int>>, w: nat, t: Tile): seq<real>
    requires SameShape(lum, mask, w)
  {
    CellsValid(lum, mask, w, Clip(t.y1, |mask|), Clip(t.y2, |mask|), Clip(t.x1, w), Clip(t.x2, w))
  }

  lemma {:induction false} RowPositive(lum: seq<real>, mask: seq<int>, x1: nat, x2: int)
    requires |lum| == |mask| && x2 <= |mask| && RowSum(mask, x1, x2) > 0
    ensures RowValid(lum, mask, x1, x2) != []
    decreases x2 - x1
  {
    if mask[x2 - 1] <= 0 {
      RowPositive(lum, mask, x1, x2 - 1);
    }
  }

  lemma {:induction false} CellsPositive(lum: seq<seq<real>>, mask: seq<seq<int>>, w: nat, y1: nat, y2: int,
                                        x1: nat, x2: int)
    requires SameShape(lum, mask, w) && y2 <= |mask| && x2 <= w && CellsSum(mask, w, y1, y2, x1, x2) > 0
    ensures CellsValid(lum, mask, w, y1, y2, x1, x2) != []
    decreases y2 - y1
  {
    if RowSum(mask[y2 - 1], x1, x2) > 0 {
      RowPositive(lum[y2 - 1], mask[y2 - 1], x1, x2);
    } else {
      CellsPositive(lum, mask, w, y1, y2 - 1, x1, x2);
    }
  }

  /** A tile whose mask sums to more than 0 holds at least one document pixel. */
  lemma PositiveTileHasPixels(lum: seq<seq<real>>, mask: seq<seq<int>>, w: nat, t: Tile)
    requires SameShape(lum, mask, w) && TileSum(mask, w, t) > 0
    ensures TileValid(lum, mask, w, t) != []
  {
    CellsPositive(lum, mask, w, Clip(t.y1, |mask|), Clip(t.y2, |mask|), Clip(t.x1, w), Clip(t.x2, w));
  }

  lemma {:induction false} RowNonPositive(row: seq<int>, x1: nat, x2: int)
    requires x2 <= |row| && forall x :: x1 <= x < x2 ==> row[x] <= 0
    ensures RowSum(row, x1, x2) <= 0
    decreases x2 - x1
  {
    if x2 > x1 {
      RowNonPositive(row, x1, x2 - 1);
    }
  }

  lemma {:induction false} CellsNonPositive(mask: seq<seq<int>>, w: nat, y1: nat, y2: int, x1: nat, x2: int)
    requires Rect(mask, w) && y2 <= |mask| && x2 <= w
    requires forall y, x :: y1 <= y < y2 && x1 <= x < x2 ==> mask[y][x] <= 0
    ensures CellsSum(mask, w, y1, y2, x1, x2) <= 0
    decreases y2 - y1
  {
    if y2 > y1 {
      CellsNonPositive(mask, w, y1, y2 - 1, x1, x2);
      RowNonPositive(mask[y2 - 1], x1, x2);
    }
  }

  // ---------------------------------------------------------------------------
  // create_illumination_map

  /** The tile of map cell `(i, j)`: `y1 = i * t`, `y2 = min(y1 + t, h)`, and so for x. */
  function MapTile(h: nat, w: nat, t: nat, i: nat, j: nat): Tile
  {
    Tile(i * t, j * t, IMin(i * t + t, h), IMin(j * t + t, w))
  }

  /** The value of map cell `(i, j)`: the mean document luminance of its tile, or 0. */
  function IllumCell(lum: seq<seq<real>>, mask: seq<seq<int>>, w: nat, t: nat, i: nat, j: nat): real
    requires SameShape(lum, mask, w)
  {
    var tile := MapTile(|mask|, w, t, i, j);
    if TileSum(mask, w, tile) > 0 then
      PositiveTileHasPixels(lum, mask, w, tile);
      Mean(TileValid(lum, mask, w, tile))
    else 0.0
  }

  /** A cell whose tile holds no mask pixel stays 0. */
  lemma EmptyTileCellIsZero(lum: seq<seq<real>>, mask: seq<seq<int>>, w: nat, t: nat, i: nat, j: nat)
    requires SameShape(lum, mask, w)
    requires var g := MapTile(|mask|, w, t, i, j);
      forall y, x :: g.y1 <= y < g.y2 && g.x1 <= x < g.x2 ==> mask[y][x] <= 0
    ensures IllumCell(lum, mask, w, t, i, j) == 0.0
  {
    var g := MapTile(|mask|, w, t, i, j);
    var h := |mask|;
    CellsNonPositive(mask, w, Clip(g.y1, h), Clip(g.y2, h), Clip(g.x1, w), Clip(g.x2, w));
  }

  /** With luminance in [0, 1], every cell of the map lies in [0, 1]. */
  lemma IllumCellBounds(lum: seq<seq<real>>, mask: seq<seq<int>>, w: nat, t: nat, i: nat, j: nat)
    requires SameShape(lum, mask, w)
    requires forall y, x :: 0 <= y < |lum| && 0 <= x < |lum[y]| ==> 0.0 <= lum[y][x] <= 1.0
    ensures 0.0 <= IllumCell(lum, mask, w, t, i, j) <= 1.0
  {
    var g := MapTile(|mask|, w, t, i, j);
    var h := |mask|;
    if TileSum(mask, w, g) > 0 {
      var v := TileValid(lum, mask, w, g);
      PositiveTileHasPixels(lum, mask, w, g);
      CellsValidIn(lum, mask, w, Clip(g.y1, h), Clip(g.y2, h), Clip(g.x1, w), Clip(g.x2, w));
      MeanBetween(v, 0.0, 1.0);
    }
  }

  predicate Within(xs: seq<real>, lo: real, hi: real)
  {
    forall k :: 0 <= k < |xs| ==> lo <= xs[k] <= hi
  }

  lemma WithinAppend(a: seq<real>, b: seq<real>, lo: real, hi: real)
    requires Within(a, lo, hi) && Within(b, lo, hi)
    ensures Within(a + b, lo, hi)
  {
    assert forall k :: 0 <= k < |a + b| ==> (a + b)[k] == (if k < |a| then a[k] else b[k - |a|]);
  }

  lemma {:induction false} RowValidIn(lum: seq<real>, mask: seq<int>, x1: nat, x2: int)
    requires |lum| == |mask| && x2 <= |mask|
    requires forall x :: 0 <= x < |lum| ==> 0.0 <= lum[x] <= 1.0
    ensures Within(RowValid(lum, mask, x1, x2), 0.0, 1.0)
    decreases x2 - x1
  {
    if x2 > x1 {
      RowValidIn(lum, mask, x1, x2 - 1);
      var e := if mask[x2 - 1] > 0 then [lum[x2 - 1]] else [];
      WithinAppend(RowValid(lum, mask, x1, x2 - 1), e, 0.0, 1.0);
    }
  }

  lemma {:induction false} CellsValidIn(lum: seq<seq<real>>, mask: seq<seq<int>>, w: nat, y1: nat, y2: int,
                                       x1: nat, x2: int)
    requires SameShape(lum, mask, w) && y2 <= |mask| && x2 <= w
    requires forall y, x :: 0 <= y < |lum| && 0 <= x < |lum[y]| ==> 0.0 <= lum[y][x] <= 1.0
    ensures Within(CellsValid(lum, mask, w, y1, y2, x1, x2), 0.0, 1.0)
    decreases y2 - y1
  {
    if y2 > y1 {
      CellsValidIn(lum, mask, w, y1, y2 - 1, x1, x2);
      RowValidIn(lum[y2 - 1], mask[y2 - 1], x1, x2);
      WithinAppend(CellsValid(lum, mask, w, y1, y2 - 1, x1, x2), RowValid(lum[y2 - 1], mask[y2 - 1], x1, x2), 0.0, 1.0);
    }
  }

  /**
   * `create_illumination_map`: a zero map of `h // t + 1` by `w // t + 1` cells, the
   * cells of tiles holding mask pixels set to their mean document luminance.
   */
  method CreateIlluminationMap(lum: seq<seq<real>>, mask: seq<seq<int>>, w: nat, t: nat)
    returns (illumMap: array2<real>)
    requires SameShape(lum, mask, w) && t > 0
    ensures fresh(illumMap)
    ensures illumMap.Length0 == |mask| / t + 1 && illumMap.Length1 == w / t + 1
    ensures forall i, j :: 0 <= i < illumMap.Length0 && 0 <= j < illumMap.Length1 ==>
      illumMap[i, j] == IllumCell(lum, mask, w, t, i, j)
  {
    var h := |mask|;
    var mapH, mapW := h / t + 1, w / t + 1;
    illumMap := new real[mapH, mapW]((i, j) => 0.0);
    var mapY := 0;
    while mapY < mapH
      invariant 0 <= mapY <= mapH
      invariant forall i, j :: 0 <= i < mapY && 0 <= j < mapW ==> illumMap[i, j] == IllumCell(lum, mask, w, t, i, j)
      invariant forall i, j :: mapY <= i < mapH && 0 <= j < mapW ==> illumMap[i, j] == 0.0
    {
      var mapX := 0;
      while mapX < mapW
        invariant 0 <= mapX <= mapW
        invariant forall i, j :: 0 <= i < mapY && 0 <= j < mapW ==> illumMap[i, j] == IllumCell(lum, mask, w, t, i, j)
        invariant forall j :: 0 <= j < mapX ==> illumMap[mapY, j] == IllumCell(lum, mask, w, t, mapY, j)
        invariant forall j :: mapX <= j < mapW ==> illumMap[mapY, j] == 0.0
        invariant forall i, j :: mapY < i < mapH && 0 <= j < mapW ==> illumMap[i, j] == 0.0
      {
        var tile := MapTile(h, w, t, mapY, mapX);
        if TileSum(mask, w, tile) > 0 {
          PositiveTileHasPixels(lum, mask, w, tile);
          illumMap[mapY, mapX] := Mean(TileValid(lum, mask, w, tile));
        }
        mapX := mapX + 1;
      }
      mapY := mapY + 1;
    }
  }

  // ---------------------------------------------------------------------------
  // _analyze_illumination_uniformity

  /** The tile size `compute` uses for uniformity. */
  const UniformityTileSize: int := 64

  /**
   * The mean document luminance of one tile, or None when the tile is skipped: its
   * mask sums to less than a tenth of a full tile, or it holds no document pixel.
   */
  function TileMean(lum: seq<seq<real>>, mask: seq<seq<int>>, w: nat, tileSize: int, t: Tile): Option<real>
    requires SameShape(lum, mask, w)
  {
    if (TileSum(mask, w, t) as real) < (tileSize * tileSize) as real * 0.1 then None
    else
      var v := TileValid(lum, mask, w, t);
      if |v| > 0 then Some(Mean(v)) else None
  }

  /** `local_means` after the loop has visited `tiles`, in order. */
  function LocalMeans(lum: seq<seq<real>>, mask: seq<seq<int>>, w: nat, tileSize: int, tiles: seq<Tile>)
    : (r: seq<real>)
    requires SameShape(lum, mask, w)
    ensures |r| <= |tiles|
  {
    if tiles == [] then []
    else
      var n := |tiles| - 1;
      LocalMeans(lum, mask, w, tileSize, tiles[..n])
        + (match TileMean(lum, mask, w, tileSize, tiles[n]) case Some(m) => [m] case None => [])
  }

  datatype Uniformity =
    | NoTiles
    | Tiles(uniformityRatio: real, localStd: real, localMean: real, coefficientOfVariation: real, numTiles: nat)

  /** The statistics of the local means; `std` is numpy's standard deviation of them. */
  function UniformityOf(means: seq<real>, std: real): Uniformity
  {
    if means == [] then NoTiles
    else
      var m := Mean(means);
      Tiles(if m > 0.0 then std / m else 0.0, std, m, if m > 0.0 then std / m * 100.0 else 0.0, |means|)
  }

  /** The uniformity of the document's illumination over the tiles of `create_tile_grid`. */
  function IlluminationUniformity(lum: seq<seq<real>>, mask: seq<seq<int>>, w: nat, tileSize: int,
                                  stdOf: seq<real> -> real): Uniformity
    requires SameShape(lum, mask, w) && tileSize > 0
  {
    var means := LocalMeans(lum, mask, w, tileSize, TileGrid(|mask|, w, tileSize).value);
    UniformityOf(means, stdOf(means))
  }

  /** `_analyze_illumination_uniformity`, with its loop over the tiles. */
  method AnalyzeIlluminationUniformity(lum: seq<seq<real>>, mask: seq<seq<int>>, w: nat, tileSize: int,
                                       stdOf: seq<real> -> real)
    returns (u: Uniformity)
    requires SameShape(lum, mask, w) && tileSize > 0
    ensures u == IlluminationUniformity(lum, mask, w, tileSize, stdOf)
  {
    var grid := CreateTileGrid(|mask|, w, tileSize);
    var tiles := grid.value;
    var localMeans: seq<real> := [];
    var i := 0;
    while i < |tiles|
      invariant 0 <= i <= |tiles|
      invariant localMeans == LocalMeans(lum, mask, w, tileSize, tiles[..i])
    {
      var tile := tiles[i];
      assert tiles[..i + 1][..i] == tiles[..i];
      if (TileSum(mask, w, tile) as real) >= (tileSize * tileSize) as real * 0.1 {
        var tileValid := TileValid(lum, mask, w, tile);
        if |tileValid| > 0 {
          localMeans := localMeans + [Mean(tileValid)];
        }
      }
      i := i + 1;
    }
    assert tiles[..i] == tiles;
    u := UniformityOf(localMeans, stdOf(localMeans));
  }

  /** Every local mean comes from a tile of the list that holds enough document pixels. */
  lemma {:induction false} LocalMeansFrom(lum: seq<seq<real>>, mask: seq<seq<int>>, w: nat, tileSize: int,
                                         tiles: seq<Tile>, k: nat)
    requires SameShape(lum, mask, w) && k < |LocalMeans(lum, mask, w, tileSize, tiles)|
    ensures exists i :: 0 <= i < |tiles| && TileMean(lum, mask, w, tileSize, tiles[i]) == Some(LocalMeans(lum, mask, w, tileSize, tiles)[k])
  {
    var n := |tiles| - 1;
    var prev := LocalMeans(lum, mask, w, tileSize, tiles[..n]);
    if k < |prev| {
      LocalMeansFrom(lum, mask, w, tileSize, tiles[..n], k);
      var i :| 0 <= i < n && TileMean(lum, mask, w, tileSize, tiles[..n][i]) == Some(prev[k]);
      assert tiles[..n][i] == tiles[i];
    } else {
      assert TileMean(lum, mask, w, tileSize, tiles[n]) == Some(LocalMeans(lum, mask, w, tileSize, tiles)[k]);
    }
  }

  /** Each local mean of a luminance image lies in [0, 1]. */
  lemma {:induction false} LocalMeansIn(lum: seq<seq<real>>, mask: seq<seq<int>>, w: nat, tileSize: int,
                                       tiles: seq<Tile>)
    requires SameShape(lum, mask, w)
    requires forall y, x :: 0 <= y < |lum| && 0 <= x < |lum[y]| ==> 0.0 <= lum[y][x] <= 1.0
    ensures Within(LocalMeans(lum, mask, w, tileSize, tiles), 0.0, 1.0)
  {
    if tiles != [] {
      var n := |tiles| - 1;
      LocalMeansIn(lum, mask, w, tileSize, tiles[..n]);
      var t := tiles[n];
      var e := match TileMean(lum, mask, w, tileSize, t) case Some(m) => [m] case None => [];
      if TileMean(lum, mask, w, tileSize, t).Some? {
        var h := |mask|;
        CellsValidIn(lum, mask, w, Clip(t.y1, h), Clip(t.y2, h), Clip(t.x1, w), Clip(t.x2, w));
        MeanBetween(TileValid(lum, mask, w, t), 0.0, 1.0);
      }
      WithinAppend(LocalMeans(lum, mask, w, tileSize, tiles[..n]), e, 0.0, 1.0);
    }
  }

  /**
   * With tiles analysed, the coefficient of variation is the ratio in percent, the
   * number of tiles is at most the grid's, the local mean of a luminance image lies
   * in [0, 1], and a non-negative deviation gives a non-negative ratio.
   */
  lemma UniformityFacts(lum: seq<seq<real>>, mask: seq<seq<int>>, w: nat, tileSize: int, stdOf: seq<real> -> real)
    requires SameShape(lum, mask, w) && tileSize > 0
    requires forall y, x :: 0 <= y < |lum| && 0 <= x < |lum[y]| ==> 0.0 <= lum[y][x] <= 1.0
    ensures var u := IlluminationUniformity(lum, mask, w, tileSize, stdOf);
      u.Tiles? ==>
        && u.coefficientOfVariation == u.uniformityRatio * 100.0
        && u.numTiles <= Ceil(|mask|, tileSize) * Ceil(w, tileSize)
        && 0.0 <= u.localMean <= 1.0
        && (u.localStd >= 0.0 ==> u.uniformityRatio >= 0.0)
  {
    var tiles := TileGrid(|mask|, w, tileSize).value;
    TilesInsideFrame(|mask|, w, tileSize);
    var means := LocalMeans(lum, mask, w, tileSize, tiles);
    if means != [] {
      LocalMeansIn(lum, mask, w, tileSize, tiles);
      MeanBetween(means, 0.0, 1.0);
      var m := Mean(means);
      if m > 0.0 && stdOf(means) >= 0.0 {
        DivBetween(stdOf(means), m, 0.0, stdOf(means) / m);
      }
    }
  }

  /** No tile holding a tenth of a tile's mask weight means no local mean, and the ratio reads 1.0. */
  lemma {:induction false} SparseTilesSkipped(lum: seq<seq<real>>, mask: seq<seq<int>>, w: nat, tileSize: int,
                                             tiles: seq<Tile>)
    requires SameShape(lum, mask, w)
    requires forall i :: 0 <= i < |tiles| ==> (TileSum(mask, w, tiles[i]) as real) < (tileSize * tileSize) as real * 0.1
    ensures LocalMeans(lum, mask, w, tileSize, tiles) == []
  {
    if tiles != [] {
      SparseTilesSkipped(lum, mask, w, tileSize, tiles[..|tiles| - 1]);
    }
  }

  // ---------------------------------------------------------------------------
  // Brightness, dynamic range and background

  /** A percentile numpy accepts. */
  type Percent = p: int | 0 <= p <= 100

  const BrightnessPercentiles: seq<Percent> := [5, 10, 25, 75, 90, 95]

  /** `np.percentile(xs, ps)`, one value per requested percentile. */
  function PercentileValues(xs: seq<real>, ps: seq<Percent>): (r: seq<real>)
    requires xs != []
    ensures |r| == |ps|
    ensures forall i :: 0 <= i < |ps| ==> r[i] == Percentile(xs, ps[i] as real)
  {
    seq(|ps|, i requires 0 <= i < |ps| => Percentile(xs, ps[i] as real))
  }

  datatype Brightness = Brightness(mean: real, median: real, std: real, min: real, max: real,
                                   percentiles: seq<(string, real)>)

  /** `_compute_brightness_statistics`; `std` is numpy's standard deviation of the pixels. */
  function BrightnessOf(pixels: seq<real>, std: real): Brightness
    requires pixels != []
  {
    Brightness(Mean(pixels), Median(pixels), std, MinOf(pixels), MaxOf(pixels),
               ComputePercentiles(seq(|pixels|, i requires 0 <= i < |pixels| => Some(pixels[i])),
                                  BrightnessPercentiles, PercentileValues(pixels, BrightnessPercentiles)))
  }

  /** The mean, the median and every requested percentile lie between the minimum and the maximum. */
  lemma BrightnessOrder(pixels: seq<real>, std: real)
    requires pixels != []
    ensures var b := BrightnessOf(pixels, std);
      && b.min <= b.mean <= b.max && b.min <= b.median <= b.max
      && b.percentiles == PercentileDict(BrightnessPercentiles, PercentileValues(pixels, BrightnessPercentiles))
      && forall i :: 0 <= i < |BrightnessPercentiles| ==>
           b.min <= PercentileValues(pixels, BrightnessPercentiles)[i] <= b.max
  {
    MeanBetween(pixels, MinOf(pixels), MaxOf(pixels));
    MedianBetween(pixels, MinOf(pixels), MaxOf(pixels));
    forall i | 0 <= i < |BrightnessPercentiles| {
      PercentileBetween(pixels, BrightnessPercentiles[i] as real);
    }
    var data := seq(|pixels|, i requires 0 <= i < |pixels| => Some(pixels[i]));
    assert data[0].Some?;
  }

  datatype DynamicRange = DynamicRange(effectiveRange: real, fullRange: real, utilization: real,
                                       p5Value: real, p95Value: real)

  /** `_analyze_dynamic_range`. */
  function DynamicRangeOf(pixels: seq<real>): DynamicRange
    requires pixels != []
  {
    var p5 := Percentile(pixels, 5.0);
    var p95 := Percentile(pixels, 95.0);
    DynamicRange(p95 - p5, MaxOf(pixels) - MinOf(pixels), p95 - p5, p5, p95)
  }

  /**
   * The effective range (5th to 95th percentile) is never negative and never
   * exceeds the full range; the utilization is the effective range.
   */
  lemma DynamicRangeBounds(pixels: seq<real>)
    requires pixels != []
    ensures var d := DynamicRangeOf(pixels);
      && 0.0 <= d.effectiveRange <= d.fullRange
      && d.utilization == d.effectiveRange
      && MinOf(pixels) <= d.p5Value <= d.p95Value <= MaxOf(pixels)
  {
    PercentileMono(pixels, 5.0, 95.0);
    PercentileBetween(pixels, 5.0);
    PercentileBetween(pixels, 95.0);
  }

  datatype BackgroundBrightness =
    | NoBackground
    | BackgroundStats(median: real, mean: real, std: real, max: real, pixelCount: nat)

  /** `_analyze_background_brightness`: the pixels where the wrapped-around `1 - doc_mask` is positive. */
  function BackgroundOf(lum: seq<seq<real>>, mask: seq<seq<int>>, stdOf: seq<real> -> real): BackgroundBrightness
    requires |lum| == |mask| && forall y :: 0 <= y < |mask| ==> |lum[y]| == |mask[y]|
  {
    var bg := BorderBackground.Background(lum, mask);
    if bg == [] then NoBackground
    else BackgroundStats(Median(bg), Mean(bg), stdOf(bg), MaxOf(bg), |bg|)
  }

  /** The background's median and mean never exceed its maximum, and it is the border metric's background. */
  lemma BackgroundOrder(lum: seq<seq<real>>, mask: seq<seq<int>>, stdOf: seq<real> -> real)
    requires |lum| == |mask| && forall y :: 0 <= y < |mask| ==> |lum[y]| == |mask[y]|
    ensures var b := BackgroundOf(lum, mask, stdOf);
      && (b.NoBackground? <==> BorderBackground.Background(lum, mask) == [])
      && (b.BackgroundStats? ==> b.median <= b.max && b.mean <= b.max && b.pixelCount == |BorderBackground.Background(lum, mask)|)
  {
    var bg := BorderBackground.Background(lum, mask);
    if bg != [] {
      MeanBetween(bg, MinOf(bg), MaxOf(bg));
      MedianBetween(bg, MinOf(bg), MaxOf(bg));
    }
  }

  // ---------------------------------------------------------------------------
  // compute

  datatype ExposureResult =
    | EmptyExposure
    | Exposure(clipping: Clipping, uniformity: Uniformity, brightness: Brightness,
               dynamicRange: DynamicRange, background: BackgroundBrightness)

  /**
   * `ExposureMetrics.compute` on an image of `|mask|` rows and `w` columns; `stdOf`
   * is numpy's standard deviation, which the model takes as given.
   */
  function Compute(image: seq<seq<Pixel>>, mask: seq<seq<int>>, w: nat, stdOf: seq<real> -> real): ExposureResult
    requires |image| == |mask| && Rect(mask, w) && forall y :: 0 <= y < |image| ==> |image[y]| == w
  {
    var lum := LuminanceImage(image);
    var pixels := DocPixels(lum, mask);
    if pixels == [] then EmptyExposure
    else Exposure(AnalyzeClipping(pixels, 0.0, 1.0),
                  IlluminationUniformity(lum, mask, w, UniformityTileSize, stdOf),
                  BrightnessOf(pixels, stdOf(pixels)),
                  DynamicRangeOf(pixels),
                  BackgroundOf(lum, mask, stdOf))
  }

  /** The result is `_empty_result` exactly when no cell of the mask is positive. */
  lemma EmptyExactlyWithoutDocument(image: seq<seq<Pixel>>, mask: seq<seq<int>>, w: nat, stdOf: seq<real> -> real)
    requires |image| == |mask| && Rect(mask, w) && forall y :: 0 <= y < |image| ==> |image[y]| == w
    ensures Compute(image, mask, w, stdOf).EmptyExposure? <==> forall y :: 0 <= y < |mask| ==> RowOff(mask[y])
  {
    DocPixelsEmpty(LuminanceImage(image), mask);
  }

  const ClippingKey: string := "clipping"
  const UniformityKey: string := "illumination_uniformity"
  const ShadowKey: string := "shadow_clip_pct"
  const HighlightKey: string := "highlight_clip_pct"
  const RatioKey: string := "uniformity_ratio"

  function ClippingToValue(c: Clipping): Value
  {
    Obj([(ShadowKey, Num(c.shadowClipPct)), (HighlightKey, Num(c.highlightClipPct)),
         ("shadow_clipped_pixels", Num(c.shadowClipped as real)),
         ("highlight_clipped_pixels", Num(c.highlightClipped as real)),
         ("total_pixels", Num(c.totalPixels as real))])
  }

  function UniformityToValue(u: Uniformity): Value
  {
    match u
    case NoTiles =>
      Obj([(RatioKey, Num(1.0)), ("local_std", Num(0.0)), ("local_mean", Num(0.0)),
           ("coefficient_of_variation", Num(0.0))])
    case Tiles(ratio, std, mean, cv, n) =>
      Obj([(RatioKey, Num(ratio)), ("local_std", Num(std)), ("local_mean", Num(mean)),
           ("coefficient_of_variation", Num(cv)), ("num_tiles_analyzed", Num(n as real))])
  }

  function BrightnessToValue(b: Brightness): Value
  {
    Obj([("mean", Num(b.mean)), ("median", Num(b.median)), ("std", Num(b.std)), ("min", Num(b.min)),
         ("max", Num(b.max)), ("percentiles", Obj(seq(|b.percentiles|, i requires 0 <= i < |b.percentiles| =>
                                                  (b.percentiles[i].0, Num(b.percentiles[i].1)))))])
  }

  function DynamicRangeToValue(d: DynamicRange): Value
  {
    Obj([("effective_range", Num(d.effectiveRange)), ("full_range", Num(d.fullRange)),
         ("utilization", Num(d.utilization)), ("p5_value", Num(d.p5Value)), ("p95_value", Num(d.p95Value))])
  }

  function BackgroundToValue(b: BackgroundBrightness): Value
  {
    match b
    case NoBackground => Obj([("median", Num(0.0)), ("mean", Num(0.0)), ("std", Num(0.0)), ("max", Num(0.0))])
    case BackgroundStats(median, mean, std, max, n) =>
      Obj([("median", Num(median)), ("mean", Num(mean)), ("std", Num(std)), ("max", Num(max)),
           ("pixel_count", Num(n as real))])
  }

  const EmptyClippingValue: Value := Obj([(ShadowKey, Num(0.0)), (HighlightKey, Num(0.0))])

  /** The metrics dict: `_empty_result`, or the five sections `compute` returns. */
  function ToValue(r: ExposureResult): Value
  {
    match r
    case EmptyExposure =>
      Obj([(ClippingKey, EmptyClippingValue),
           (UniformityKey, Obj([(RatioKey, Num(1.0)), ("local_std", Num(0.0)), ("local_mean", Num(0.0))])),
           ("brightness", Obj([("mean", Num(0.0)), ("median", Num(0.0)), ("std", Num(0.0))])),
           ("dynamic_range", Obj([("range", Num(0.0)), ("utilization", Num(0.0))])),
           ("background", Obj([("median", Num(0.0)), ("mean", Num(0.0))]))])
    case Exposure(c, u, b, d, bg) =>
      Obj([(ClippingKey, ClippingToValue(c)), (UniformityKey, UniformityToValue(u)),
           ("brightness", BrightnessToValue(b)), ("dynamic_range", DynamicRangeToValue(d)),
           ("background", BackgroundToValue(bg))])
  }

  /** The uniformity ratio the dict reports: 1.0 without analysed tiles. */
  function ReportedRatio(u: Uniformity): real
  {
    if u.Tiles? then u.uniformityRatio else 1.0
  }

  lemma ClippingReads(c: Clipping)
    ensures NumOr(ClippingToValue(c), ShadowKey, 0.0) == c.shadowClipPct
    ensures NumOr(ClippingToValue(c), HighlightKey, 0.0) == c.highlightClipPct
  {
    var v := ClippingToValue(c);
    assert v.fields[0].0 != HighlightKey by { assert ShadowKey[0] != HighlightKey[0]; }
    assert v.fields[1..][0] == (HighlightKey, Num(c.highlightClipPct));
    assert Get(v.fields[1..], HighlightKey) == Some(Num(c.highlightClipPct));
  }

  lemma EmptyClippingReads()
    ensures NumOr(EmptyClippingValue, ShadowKey, 0.0) == 0.0 && NumOr(EmptyClippingValue, HighlightKey, 0.0) == 0.0
  {
    var v := EmptyClippingValue;
    assert v.fields[0].0 != HighlightKey by { assert ShadowKey[0] != HighlightKey[0]; }
    assert v.fields[1..][0] == (HighlightKey, Num(0.0));
    assert Get(v.fields[1..], HighlightKey) == Some(Num(0.0));
  }

  lemma UniformityReads(u: Uniformity)
    ensures NumOr(UniformityToValue(u), RatioKey, 0.0) == ReportedRatio(u)
  {
  }

  /**
   * The scorer reads the clipping percentages and the uniformity ratio of the
   * result: 0, 0 and 1.0 for the empty result.
   */
  lemma ResultReads(r: ExposureResult)
    ensures var v := ToValue(r);
      && NumOr(Section(v, ClippingKey), ShadowKey, 0.0) == (if r.Exposure? then r.clipping.shadowClipPct else 0.0)
      && NumOr(Section(v, ClippingKey), HighlightKey, 0.0) == (if r.Exposure? then r.clipping.highlightClipPct else 0.0)
      && NumOr(Section(v, UniformityKey), RatioKey, 0.0) == (if r.Exposure? then ReportedRatio(r.uniformity) else 1.0)
  {
    var v := ToValue(r);
    assert v.fields[0].0 != UniformityKey by { assert ClippingKey[0] != UniformityKey[0]; }
    assert v.fields[1..][0].0 == UniformityKey;
    assert Get(v.fields[1..], UniformityKey) == Some(v.fields[1].1);
    if r.Exposure? {
      ClippingReads(r.clipping);
      UniformityReads(r.uniformity);
    } else {
      EmptyClippingReads();
    }
  }

  /**
   * An image without a document pixel gets the empty result, whose ratio of 1.0
   * fails exposure whenever the fail threshold is below 1 (0.25 by default).
   */
  lemma EmptyResultFails(cfg: Value)
    requires NumOr(cfg, "illumination_uniformity_fail", 0.25) < 1.0
    ensures Scoring.ScoreExposure(ToValue(EmptyExposure), cfg) == Scoring.Fail
  {
    ResultReads(EmptyExposure);
  }

  /**
   * A document none of whose tiles holds a tenth of a tile's mask weight reports a
   * ratio of 1.0, and so fails exposure under the same condition.
   */
  lemma NoTilesFails(image: seq<seq<Pixel>>, mask: seq<seq<int>>, w: nat, stdOf: seq<real> -> real, cfg: Value)
    requires |image| == |mask| && Rect(mask, w) && forall y :: 0 <= y < |image| ==> |image[y]| == w
    requires var tiles := TileGrid(|mask|, w, UniformityTileSize).value;
      forall i :: 0 <= i < |tiles| ==> (TileSum(mask, w, tiles[i]) as real) < 409.6
    requires NumOr(cfg, "illumination_uniformity_fail", 0.25) < 1.0
    ensures Scoring.ScoreExposure(ToValue(Compute(image, mask, w, stdOf)), cfg) == Scoring.Fail
  {
    var lum := LuminanceImage(image);
    SparseTilesSkipped(lum, mask, w, UniformityTileSize, TileGrid(|mask|, w, UniformityTileSize).value);
    ResultReads(Compute(image, mask, w, stdOf));
  }

  /**
   * The clipping percentages of a non-empty result lie in [0, 100] and add up to at
   * most 100; the scorer fails exposure whenever one of them is above its limit.
   */
  lemma ClippingScore(image: seq<seq<Pixel>>, mask: seq<seq<int>>, w: nat, stdOf: seq<real> -> real, cfg: Value)
    requires |image| == |mask| && Rect(mask, w) && forall y :: 0 <= y < |image| ==> |image[y]| == w
    ensures var r := Compute(image, mask, w, stdOf);
      r.Exposure? ==>
        && 0.0 <= r.clipping.shadowClipPct && 0.0 <= r.clipping.highlightClipPct
        && r.clipping.shadowClipPct + r.clipping.highlightClipPct <= 100.0
        && (r.clipping.shadowClipPct > NumOr(cfg, "max_shadow_clip_pct", 0.5) ==> Scoring.ScoreExposure(ToValue(r), cfg) == Scoring.Fail)
        && (r.clipping.highlightClipPct > NumOr(cfg, "max_highlight_clip_pct", 0.5) ==> Scoring.ScoreExposure(ToValue(r), cfg) == Scoring.Fail)
  {
    var r := Compute(image, mask, w, stdOf);
    if r.Exposure? {
      var pixels := DocPixels(LuminanceImage(image), mask);
      ClippingBounds(pixels, 0.0, 1.0);
      ClippingSumBounded(pixels);
      ResultReads(r);
    }
  }
}
