/**
 * The helpers every metric shares: the document mask, its bounding box, the grid
 * of tiles local analyses walk over, percentiles and luminance. A mask is a matrix
 * of integers, row by row (`m[y][x]`); numpy's shape `(h, w)` is `|m|` and the
 * common row length `w`, given separately so that a mask with no rows still has a
 * width.
 */
module MaskUtils {
  import opened Values

  /** A matrix of `|m|` rows of `w` cells each. */
  predicate Rect(m: seq<seq<int>>, w: nat)
  {
    forall y :: 0 <= y < |m| ==> |m[y]| == w
  }

  /** `doc_mask[y, x] > 0`. */
  predicate On(m: seq<seq<int>>, y: int, x: int)
  {
    0 <= y < |m| && 0 <= x < |m[y]| && m[y][x] > 0
  }

  // ---------------------------------------------------------------------------
  // create_document_mask

  const Otsu: string := "otsu"
  const Adaptive: string := "adaptive"
  const Combined: string := "combined"

  /** `cv2.bitwise_and` of two 8-bit masks. */
  function BitAnd(a: seq<seq<int>>, b: seq<seq<int>>): (r: seq<seq<int>>)
    requires |a| == |b|
    requires forall y :: 0 <= y < |a| ==> |a[y]| == |b[y]|
    requires forall y, x :: 0 <= y < |a| && 0 <= x < |a[y]| ==> 0 <= a[y][x] < 256 && 0 <= b[y][x] < 256
    ensures |r| == |a| && forall y :: 0 <= y < |r| ==> |r[y]| == |a[y]|
    ensures forall y, x :: 0 <= y < |r| && 0 <= x < |r[y]| ==>
      (r[y][x] > 0 ==> a[y][x] > 0 && b[y][x] > 0)
  {
    seq(|a|, y requires 0 <= y < |a| =>
      seq(|a[y]|, x requires 0 <= x < |a[y]| => ((a[y][x] as bv8) & (b[y][x] as bv8)) as int))
  }

  /** `(mask > 0).astype(np.uint8)`. */
  function Binarize(m: seq<seq<int>>): (r: seq<seq<int>>)
    ensures |r| == |m| && forall y :: 0 <= y < |r| ==> |r[y]| == |m[y]|
    ensures forall y, x :: 0 <= y < |r| && 0 <= x < |r[y]| ==>
      (r[y][x] == 1 <==> m[y][x] > 0) && (r[y][x] == 0 <==> m[y][x] <= 0)
  {
    seq(|m|, y requires 0 <= y < |m| =>
      seq(|m[y]|, x requires 0 <= x < |m[y]| => if m[y][x] > 0 then 1 else 0))
  }

  /**
   * `create_document_mask`. The thresholdings (`otsu`, `adaptive`) and the filled
   * largest contour are computed by OpenCV and are given: `fill(mask)` is the
   * thresholded mask with its largest external contour filled, or None when it has
   * no contour. Any other method name raises ValueError.
   */
  function CreateDocumentMask(methodName: string, otsu: seq<seq<int>>, adaptive: seq<seq<int>>, w: nat,
                              fill: seq<seq<int>> -> Option<seq<seq<int>>>): (r: Result<seq<seq<int>>>)
    requires Rect(otsu, w) && Rect(adaptive, w) && |otsu| == |adaptive|
    requires forall y, x :: 0 <= y < |otsu| && 0 <= x < w ==> 0 <= otsu[y][x] < 256 && 0 <= adaptive[y][x] < 256
    ensures r.Err? <==> methodName !in {Otsu, Adaptive, Combined}
  {
    if methodName == Otsu || methodName == Adaptive || methodName == Combined then
      var thresholded :=
        if methodName == Otsu then otsu
        else if methodName == Adaptive then adaptive
        else BitAnd(otsu, adaptive);
      var filled := fill(thresholded);
      Ok(Binarize(if filled.Some? && |filled.value| == |thresholded| && Rect(filled.value, w)
                  then filled.value else thresholded))
    else
      Err("Unknown thresholding method: " + methodName)
  }

  /** The mask has the image's height and width and holds only 0 and 1. */
  lemma DocumentMaskShape(methodName: string, otsu: seq<seq<int>>, adaptive: seq<seq<int>>, w: nat,
                          fill: seq<seq<int>> -> Option<seq<seq<int>>>)
    requires Rect(otsu, w) && Rect(adaptive, w) && |otsu| == |adaptive|
    requires forall y, x :: 0 <= y < |otsu| && 0 <= x < w ==> 0 <= otsu[y][x] < 256 && 0 <= adaptive[y][x] < 256
    ensures var r := CreateDocumentMask(methodName, otsu, adaptive, w, fill);
      r.Ok? ==> |r.value| == |otsu| && Rect(r.value, w)
                && forall y, x :: 0 <= y < |otsu| && 0 <= x < w ==> r.value[y][x] in {0, 1}
  {
    var r := CreateDocumentMask(methodName, otsu, adaptive, w, fill);
    if r.Ok? {
      var thresholded :=
        if methodName == Otsu then otsu
        else if methodName == Adaptive then adaptive
        else BitAnd(otsu, adaptive);
      assert Rect(thresholded, w);
    }
  }

  /** Without a contour, `combined` keeps only the cells both thresholdings keep. */
  lemma CombinedNeedsBoth(otsu: seq<seq<int>>, adaptive: seq<seq<int>>, w: nat,
                          fill: seq<seq<int>> -> Option<seq<seq<int>>>, y: nat, x: nat)
    requires Rect(otsu, w) && Rect(adaptive, w) && |otsu| == |adaptive|
    requires forall y, x :: 0 <= y < |otsu| && 0 <= x < w ==> 0 <= otsu[y][x] < 256 && 0 <= adaptive[y][x] < 256
    requires fill(BitAnd(otsu, adaptive)).None?
    requires y < |otsu| && x < w
    ensures var r := CreateDocumentMask(Combined, otsu, adaptive, w, fill);
      r.Ok? && (r.value[y][x] == 1 ==> otsu[y][x] > 0 && adaptive[y][x] > 0)
  {
  }

  // ---------------------------------------------------------------------------
  // get_document_bbox

  datatype Bbox = Bbox(xMin: int, yMin: int, xMax: int, yMax: int)

  /** The first and last index of a non-zero cell of a row. */
  function RowSpan(row: seq<int>): (r: Option<(int, int)>)
    ensures r.None? <==> forall x :: 0 <= x < |row| ==> row[x] <= 0
    ensures r.Some? ==>
      && 0 <= r.value.0 <= r.value.1 < |row|
      && row[r.value.0] > 0 && row[r.value.1] > 0
      && forall x :: 0 <= x < |row| && row[x] > 0 ==> r.value.0 <= x <= r.value.1
  {
    if row == [] then None
    else
      var n := |row| - 1;
      var p := RowSpan(row[..n]);
      assert forall x :: 0 <= x < n ==> row[..n][x] == row[x];
      if row[n] > 0 then
        match p
        case None => Some((n, n))
        case Some((a, _)) => Some((a, n))
      else p
  }

  /** The extent of the non-zero cells of a mask, row by row. */
  function MaskSpan(m: seq<seq<int>>): (r: Option<Bbox>)
    ensures r.None? <==> forall y, x :: !On(m, y, x)
  {
    if m == [] then None
    else
      var n := |m| - 1;
      var p := MaskSpan(m[..n]);
      assert forall y, x :: On(m[..n], y, x) <==> y < n && On(m, y, x);
      var s := RowSpan(m[n]);
      if s.None? then
        assert forall x :: !On(m, n, x);
        p
      else
        assert On(m, n, s.value.0);
        var (a, c) := s.value;
        if p.None? then Some(Bbox(a, n, c, n))
        else Some(Bbox(IMin(p.value.xMin, a), p.value.yMin, IMax(p.value.xMax, c), n))
  }

  /** `get_document_bbox`: `(x_min, y_min, x_max, y_max)`, or `(0, 0, w, h)` for an empty mask. */
  function DocumentBbox(m: seq<seq<int>>, w: nat): (r: Bbox)
    ensures (forall y, x :: !On(m, y, x)) ==> r == Bbox(0, 0, w, |m|)
  {
    match MaskSpan(m)
    case None => Bbox(0, 0, w, |m|)
    case Some(b) => b
  }

  /** Every non-zero cell lies inside the box. */
  ghost predicate Encloses(m: seq<seq<int>>, b: Bbox)
  {
    forall y, x :: On(m, y, x) ==> b.xMin <= x <= b.xMax && b.yMin <= y <= b.yMax
  }

  /** Each side of the box touches a non-zero cell. */
  ghost predicate Touches(m: seq<seq<int>>, b: Bbox)
  {
    && (exists x :: On(m, b.yMin, x))
    && (exists x :: On(m, b.yMax, x))
    && (exists y :: On(m, y, b.xMin))
    && (exists y :: On(m, y, b.xMax))
  }

  ghost predicate IsExtent(m: seq<seq<int>>, b: Bbox)
  {
    Encloses(m, b) && Touches(m, b)
  }

  lemma {:induction false} MaskSpanEncloses(m: seq<seq<int>>)
    requires MaskSpan(m).Some?
    ensures Encloses(m, MaskSpan(m).value)
  {
    var n := |m| - 1;
    var init := m[..n];
    assert forall y, x :: On(init, y, x) <==> y < n && On(m, y, x);
    var s := RowSpan(m[n]);
    if MaskSpan(init).Some? {
      MaskSpanEncloses(init);
    }
    if s.Some? {
      assert forall x :: On(m, n, x) ==> s.value.0 <= x <= s.value.1;
    } else {
      assert forall x :: !On(m, n, x);
    }
  }

  lemma {:induction false} MaskSpanTouches(m: seq<seq<int>>)
    requires MaskSpan(m).Some?
    ensures Touches(m, MaskSpan(m).value)
  {
    var n := |m| - 1;
    var init := m[..n];
    var s := RowSpan(m[n]);
    if MaskSpan(init).Some? {
      MaskSpanTouches(init);
      var p := MaskSpan(init).value;
      var x1 :| On(init, p.yMin, x1);
      assert On(m, p.yMin, x1);
      var y1 :| On(init, y1, p.xMin);
      assert On(m, y1, p.xMin);
      var y2 :| On(init, y2, p.xMax);
      assert On(m, y2, p.xMax);
      if s.None? {
        var x2 :| On(init, p.yMax, x2);
        assert On(m, p.yMax, x2);
      } else {
        assert On(m, n, s.value.0) && On(m, n, s.value.1);
      }
    } else {
      assert On(m, n, s.value.0) && On(m, n, s.value.1);
    }
  }

  /**
   * For a mask with a non-zero cell, the box is the least and greatest column and
   * row of those cells, so it lies inside the frame: `0 <= x_min <= x_max < w` and
   * `0 <= y_min <= y_max < h`.
   */
  lemma BboxIsExtent(m: seq<seq<int>>, w: nat, y: int, x: int)
    requires Rect(m, w)
    requires On(m, y, x)
    ensures var b := DocumentBbox(m, w);
      && IsExtent(m, b)
      && 0 <= b.xMin <= b.xMax < w && 0 <= b.yMin <= b.yMax < |m|
  {
    MaskSpanEncloses(m);
    MaskSpanTouches(m);
    var b := DocumentBbox(m, w);
    var y1 :| On(m, y1, b.xMax);
    var x1 :| On(m, b.yMax, x1);
  }

  /** A mask with no non-zero cell gives the whole frame, `(0, 0, w, h)`: here the maxima are exclusive. */
  lemma EmptyMaskBbox(m: seq<seq<int>>, w: nat)
    requires forall y :: 0 <= y < |m| ==> forall x :: 0 <= x < |m[y]| ==> m[y][x] <= 0
    ensures DocumentBbox(m, w) == Bbox(0, 0, w, |m|)
  {
  }

  // ---------------------------------------------------------------------------
  // create_tile_grid

  /** A tile `[y1, x1, y2, x2]`: rows `y1 .. y2 - 1`, columns `x1 .. x2 - 1`. */
  datatype Tile = Tile(y1: int, x1: int, y2: int, x2: int)

  predicate Contains(t: Tile, y: int, x: int)
  {
    t.y1 <= y < t.y2 && t.x1 <= x < t.x2
  }

  /** `len(range(0, n, t))` for a positive step: `ceil(n / t)`. */
  function Ceil(n: nat, t: nat): nat
    requires t > 0
  {
    (n + t - 1) / t
  }

  /** The tile in grid row `i`, column `j`, clipped to the frame. */
  function TileAt(h: nat, w: nat, t: nat, i: nat, j: nat): Tile
  {
    Tile(i * t, j * t, IMin(i * t + t, h), IMin(j * t + t, w))
  }

  /** The first `n` tiles of grid row `i`. */
  function RowTiles(h: nat, w: nat, t: nat, i: nat, n: nat): (r: seq<Tile>)
    ensures |r| == n
  {
    if n == 0 then [] else RowTiles(h, w, t, i, n - 1) + [TileAt(h, w, t, i, n - 1)]
  }

  /** The first `n` rows of the grid, row-major. */
  function GridRows(h: nat, w: nat, t: nat, n: nat): seq<Tile>
    requires t > 0
  {
    if n == 0 then [] else GridRows(h, w, t, n - 1) + RowTiles(h, w, t, n - 1, Ceil(w, t))
  }

  const ZeroStepMessage: string := "range() arg 3 must not be zero"

  /**
   * `create_tile_grid((h, w), tile_size)`: Python's `range` rejects a zero step and
   * is empty for a negative one.
   */
  function TileGrid(h: nat, w: nat, t: int): (r: Result<seq<Tile>>)
    ensures r.Err? <==> t == 0
    ensures t < 0 ==> r == Ok([])
  {
    if t == 0 then Err(ZeroStepMessage)
    else if t < 0 then Ok([])
    else Ok(GridRows(h, w, t, Ceil(h, t)))
  }

  lemma MulMono(a: int, b: int, t: int)
    requires a <= b && t >= 0
    ensures a * t <= b * t
  {
    assert (b - a) * t >= 0;
  }

  /** `i` steps of `t` reach `n` exactly when `i` is `ceil(n / t)`. */
  lemma CeilSteps(n: nat, t: nat, i: nat)
    requires t > 0
    requires i * t >= n && (i == 0 || (i - 1) * t < n)
    ensures i == Ceil(n, t)
  {
    var q := Ceil(n, t);
    assert q * t + (n + t - 1) % t == n + t - 1;
    assert q * t >= n;
    assert (q - 1) * t < n;
    if i < q {
      MulMono(i, q - 1, t);
    } else if i > q {
      MulMono(q, i - 1, t);
    }
  }

  /** The pixel row `y` lies in grid row `y / t`, and in no other. */
  lemma RowOfPixel(n: nat, t: nat, y: nat, i: nat)
    requires t > 0 && y < n
    ensures y / t < Ceil(n, t)
    ensures i * t <= y < IMin(i * t + t, n) <==> i == y / t
  {
    RowIndexInGrid(n, t, y);
    RowOfPixelOnly(n, t, y, i);
  }

  lemma RowIndexInGrid(n: nat, t: nat, y: nat)
    requires t > 0 && y < n
    ensures y / t < Ceil(n, t)
  {
    var q := y / t;
    assert q * t + y % t == y;
    var c := Ceil(n, t);
    assert c * t + (n + t - 1) % t == n + t - 1;
    if q >= c {
      MulMono(c, q, t);
    }
  }

  lemma RowOfPixelOnly(n: nat, t: nat, y: nat, i: nat)
    requires t > 0 && y < n
    ensures i * t <= y < IMin(i * t + t, n) <==> i == y / t
  {
    var q := y / t;
    assert q * t + y % t == y;
    if i < q {
      MulMono(i + 1, q, t);
      assert (i + 1) * t == i * t + t;
    } else if i > q {
      MulMono(q + 1, i, t);
      assert (q + 1) * t == q * t + t;
    }
  }

  /** Every row index below `ceil(n / t)` starts inside the frame. */
  lemma RowStartsInside(n: nat, t: nat, i: nat)
    requires t > 0 && i < Ceil(n, t)
    ensures i * t < n
  {
    var c := Ceil(n, t);
    assert c * t + (n + t - 1) % t == n + t - 1;
    MulMono(i, c - 1, t);
  }

  lemma {:induction false} RowTilesAt(h: nat, w: nat, t: nat, i: nat, n: nat, j: nat)
    requires j < n
    ensures RowTiles(h, w, t, i, n)[j] == TileAt(h, w, t, i, j)
  {
    if j < n - 1 {
      RowTilesAt(h, w, t, i, n - 1, j);
    }
  }

  lemma MulSucc(n: nat, c: nat)
    requires n > 0
    ensures (n - 1) * c + c == n * c
  {
  }

  /** The grid holds `ceil(h / t) * ceil(w / t)` tiles. */
  lemma {:induction false} GridRowsLength(h: nat, w: nat, t: nat, n: nat)
    requires t > 0
    ensures |GridRows(h, w, t, n)| == n * Ceil(w, t)
  {
    if n > 0 {
      GridRowsLength(h, w, t, n - 1);
      MulSucc(n, Ceil(w, t));
    }
  }

  /** A tile inside the frame, with at least one pixel, starting at multiples of `t`. */
  predicate InFrame(h: nat, w: nat, t: nat, tile: Tile)
    requires t > 0
  {
    && 0 <= tile.y1 < tile.y2 <= h && 0 <= tile.x1 < tile.x2 <= w
    && tile.y1 % t == 0 && tile.x1 % t == 0
  }

  lemma MulMod(i: nat, t: nat)
    requires t > 0
    ensures (i * t) % t == 0
  {
    var q, r := (i * t) / t, (i * t) % t;
    assert i * t == q * t + r;
    assert (i - q) * t == r;
    if i - q >= 1 {
      MulMono(1, i - q, t);
    } else if i - q <= -1 {
      MulMono(i - q, -1, t);
    }
  }

  lemma {:induction false} RowTilesInFrame(h: nat, w: nat, t: nat, i: nat, n: nat)
    requires t > 0 && i < Ceil(h, t) && n <= Ceil(w, t)
    ensures forall k :: 0 <= k < n ==> InFrame(h, w, t, RowTiles(h, w, t, i, n)[k])
  {
    if n > 0 {
      RowTilesInFrame(h, w, t, i, n - 1);
      TileAtInFrame(h, w, t, i, n - 1);
    }
  }

  /** The tile of grid row `i`, column `j` is non-empty and lies inside the frame. */
  lemma TileAtInFrame(h: nat, w: nat, t: nat, i: nat, j: nat)
    requires t > 0 && i < Ceil(h, t) && j < Ceil(w, t)
    ensures InFrame(h, w, t, TileAt(h, w, t, i, j))
  {
    RowStartsInside(h, t, i);
    RowStartsInside(w, t, j);
    MulMod(i, t);
    MulMod(j, t);
  }

  lemma {:induction false} GridRowsInFrame(h: nat, w: nat, t: nat, n: nat)
    requires t > 0 && n <= Ceil(h, t)
    ensures forall k :: 0 <= k < |GridRows(h, w, t, n)| ==> InFrame(h, w, t, GridRows(h, w, t, n)[k])
  {
    if n > 0 {
      GridRowsInFrame(h, w, t, n - 1);
      RowTilesInFrame(h, w, t, n - 1, Ceil(w, t));
    }
  }

  /** Each tile of the grid is non-empty and lies inside the frame. */
  lemma TilesInsideFrame(h: nat, w: nat, t: nat)
    requires t > 0
    ensures var g := TileGrid(h, w, t).value;
      && |g| == Ceil(h, t) * Ceil(w, t)
      && forall k :: 0 <= k < |g| ==> InFrame(h, w, t, g[k])
  {
    GridRowsLength(h, w, t, Ceil(h, t));
    GridRowsInFrame(h, w, t, Ceil(h, t));
  }

  /** How many tiles contain pixel `(y, x)`. */
  function Covering(tiles: seq<Tile>, y: int, x: int): nat
  {
    if tiles == [] then 0
    else Covering(tiles[..|tiles| - 1], y, x) + (if Contains(tiles[|tiles| - 1], y, x) then 1 else 0)
  }

  lemma {:induction false} CoveringAppend(a: seq<Tile>, b: seq<Tile>, y: int, x: int)
    ensures Covering(a + b, y, x) == Covering(a, y, x) + Covering(b, y, x)
    decreases |b|
  {
    if b == [] {
      assert a + b == a;
    } else {
      var n := |b| - 1;
      assert (a + b)[..|a + b| - 1] == a + b[..n];
      CoveringAppend(a, b[..n], y, x);
    }
  }

  /** In grid row `i`, pixel `(y, x)` is covered once if both its grid coordinates match, else never. */
  lemma {:induction false} RowCovering(h: nat, w: nat, t: nat, i: nat, n: nat, y: nat, x: nat)
    requires t > 0 && y < h && x < w
    ensures Covering(RowTiles(h, w, t, i, n), y, x) == if i == y / t && x / t < n then 1 else 0
  {
    if n > 0 {
      RowCovering(h, w, t, i, n - 1, y, x);
      RowOfPixel(h, t, y, i);
      RowOfPixel(w, t, x, n - 1);
      var r := RowTiles(h, w, t, i, n);
      assert r[..n - 1] == RowTiles(h, w, t, i, n - 1);
    }
  }

  lemma {:induction false} GridCovering(h: nat, w: nat, t: nat, n: nat, y: nat, x: nat)
    requires t > 0 && y < h && x < w
    ensures Covering(GridRows(h, w, t, n), y, x) == if y / t < n then 1 else 0
  {
    if n > 0 {
      GridCovering(h, w, t, n - 1, y, x);
      RowCovering(h, w, t, n - 1, Ceil(w, t), y, x);
      RowOfPixel(w, t, x, 0);
      CoveringAppend(GridRows(h, w, t, n - 1), RowTiles(h, w, t, n - 1, Ceil(w, t)), y, x);
    }
  }

  /** The tiles partition the frame: every pixel of the frame lies in exactly one tile. */
  lemma TilesPartitionFrame(h: nat, w: nat, t: nat, y: nat, x: nat)
    requires t > 0 && y < h && x < w
    ensures Covering(TileGrid(h, w, t).value, y, x) == 1
  {
    GridCovering(h, w, t, Ceil(h, t), y, x);
    RowOfPixel(h, t, y, 0);
  }

  /** `create_tile_grid`, with its two nested loops appending to `tiles`. */
  method CreateTileGrid(h: nat, w: nat, t: int) returns (r: Result<seq<Tile>>)
    ensures r == TileGrid(h, w, t)
  {
    if t == 0 {
      return Err(ZeroStepMessage);
    }
    if t < 0 {
      return Ok([]);
    }
    var tiles: seq<Tile> := [];
    var y, i := 0, 0;
    while y < h
      invariant y == i * t
      invariant i == 0 || (i - 1) * t < h
      invariant tiles == GridRows(h, w, t, i)
      decreases h - y
    {
      var row := CreateTileRow(h, w, t, y, i);
      tiles := tiles + row;
      NextStep(y, i, t);
      y, i := y + t, i + 1;
    }
    CeilSteps(h, t, i);
    return Ok(tiles);
  }

  /** The inner loop of `create_tile_grid`: the tiles of grid row `i`, which starts at `y`. */
  method CreateTileRow(h: nat, w: nat, t: nat, y: nat, i: nat) returns (row: seq<Tile>)
    requires t > 0 && y == i * t
    ensures row == RowTiles(h, w, t, i, Ceil(w, t))
  {
    row := [];
    var x, j := 0, 0;
    while x < w
      invariant x == j * t
      invariant j == 0 || (j - 1) * t < w
      invariant row == RowTiles(h, w, t, i, j)
      decreases w - x
    {
      row := row + [Tile(y, x, IMin(y + t, h), IMin(x + t, w))];
      NextStep(x, j, t);
      x, j := x + t, j + 1;
    }
    CeilSteps(w, t, j);
  }

  /** One step of a `range(0, n, t)` loop: the next start is one more multiple of `t`. */
  lemma NextStep(x: int, j: int, t: int)
    requires x == j * t
    ensures x + t == (j + 1) * t
  {
  }

  // ---------------------------------------------------------------------------
  // compute_percentiles

  function Digit(d: nat): char
    requires d < 10
  {
    "0123456789"[d]
  }

  /** `str(n)` for a natural number. */
  function NatString(n: nat): (s: string)
    ensures |s| > 0
    decreases n
  {
    if n < 10 then [Digit(n)] else NatString(n / 10) + [Digit(n % 10)]
  }

  /** `f"p{p}"`. */
  function PercentileKey(p: int): (s: string)
    ensures |s| > 0 && s[0] == 'p'
  {
    "p" + (if p < 0 then "-" + NatString(-p) else NatString(p))
  }

  /** `{f"p{p}": 0.0 for p in percentiles}`, written key by key. */
  function ZeroPercentiles(ps: seq<int>): seq<(string, real)>
  {
    if ps == [] then []
    else Put(ZeroPercentiles(ps[..|ps| - 1]), PercentileKey(ps[|ps| - 1]), 0.0)
  }

  /** `{f"p{p}": float(v) for p, v in zip(percentiles, values)}`. */
  function PercentileDict(ps: seq<int>, values: seq<real>): seq<(string, real)>
    decreases |ps|
  {
    var n := IMin(|ps|, |values|);
    if n == 0 then []
    else Put(PercentileDict(ps[..n - 1], values[..n - 1]), PercentileKey(ps[n - 1]), values[n - 1])
  }

  /**
   * `compute_percentiles`: `data` with its NaN entries as None; `values` are numpy's
   * percentiles of the remaining data, one per requested percentile.
   */
  function ComputePercentiles(data: seq<Option<real>>, ps: seq<int>, values: seq<real>): seq<(string, real)>
  {
    if forall i :: 0 <= i < |data| ==> data[i].None? then ZeroPercentiles(ps) else PercentileDict(ps, values)
  }

  /** Without data, the keys are exactly the `p{p}` of the requested list, each 0.0. */
  lemma {:induction false} ZeroPercentilesKeys(ps: seq<int>, k: string)
    ensures var r := ZeroPercentiles(ps);
      && UniqueKeys(r)
      && (k in Keys(r) <==> exists i :: 0 <= i < |ps| && PercentileKey(ps[i]) == k)
      && (k in Keys(r) ==> Get(r, k) == Some(0.0))
  {
    ZeroPercentilesUnique(ps);
    ZeroPercentilesKeySet(ps, k);
    ZeroPercentilesValues(ps, k);
  }

  lemma {:induction false} ZeroPercentilesUnique(ps: seq<int>)
    ensures UniqueKeys(ZeroPercentiles(ps))
  {
    if ps != [] {
      var n := |ps| - 1;
      ZeroPercentilesUnique(ps[..n]);
      PutUnique(ZeroPercentiles(ps[..n]), PercentileKey(ps[n]), 0.0);
    }
  }

  lemma {:induction false} ZeroPercentilesKeySet(ps: seq<int>, k: string)
    ensures k in Keys(ZeroPercentiles(ps)) <==> exists i :: 0 <= i < |ps| && PercentileKey(ps[i]) == k
  {
    if ps != [] {
      var n := |ps| - 1;
      var prev := ZeroPercentiles(ps[..n]);
      var key := PercentileKey(ps[n]);
      ZeroPercentilesKeySet(ps[..n], k);
      PutKeys(prev, key, 0.0);
      assert k in Keys(ZeroPercentiles(ps)) <==> k in Keys(prev) || k == key;
      if k in Keys(prev) {
        var i :| 0 <= i < n && PercentileKey(ps[..n][i]) == k;
        assert ps[..n][i] == ps[i];
      }
      if i :| 0 <= i < n && PercentileKey(ps[i]) == k {
        assert ps[..n][i] == ps[i];
      }
    }
  }

  lemma {:induction false} ZeroPercentilesValues(ps: seq<int>, k: string)
    ensures k in Keys(ZeroPercentiles(ps)) ==> Get(ZeroPercentiles(ps), k) == Some(0.0)
  {
    if ps != [] {
      var n := |ps| - 1;
      var prev := ZeroPercentiles(ps[..n]);
      ZeroPercentilesValues(ps[..n], k);
      PutKeys(prev, PercentileKey(ps[n]), 0.0);
      if k == PercentileKey(ps[n]) {
        GetPutSame(prev, k, 0.0);
      } else {
        GetPutOther(prev, PercentileKey(ps[n]), 0.0, k);
      }
    }
  }

  /** All-NaN input reads as empty data. */
  lemma AllNanIsEmpty(data: seq<Option<real>>, ps: seq<int>, values: seq<real>)
    requires forall i :: 0 <= i < |data| ==> data[i] == None
    ensures ComputePercentiles(data, ps, values) == ZeroPercentiles(ps)
  {
  }

  // ---------------------------------------------------------------------------
  // convert_to_luminance

  /** An 8-bit pixel: one gray level, or blue, green and red. */
  datatype Pixel = Gray(v: int) | Bgr(b: int, g: int, r: int)

  predicate EightBit(p: Pixel)
  {
    match p
    case Gray(v) => 0 <= v < 256
    case Bgr(b, g, r) => 0 <= b < 256 && 0 <= g < 256 && 0 <= r < 256
  }

  /** `convert_to_luminance` of one pixel: the gray level, or 0.114 B + 0.587 G + 0.299 R, over 255. */
  function Luminance(p: Pixel): real
  {
    match p
    case Gray(v) => v as real / 255.0
    case Bgr(b, g, r) => (0.114 * b as real + 0.587 * g as real + 0.299 * r as real) / 255.0
  }

  /** An 8-bit pixel has a luminance in [0, 1]; black is 0 and white is 1. */
  lemma LuminanceBounds(p: Pixel)
    requires EightBit(p)
    ensures 0.0 <= Luminance(p) <= 1.0
    ensures Luminance(p) == 0.0 <==> p == Gray(0) || p == Bgr(0, 0, 0)
    ensures p == Gray(255) || p == Bgr(255, 255, 255) ==> Luminance(p) == 1.0
  {
    if p.Bgr? {
      assert 0.114 * p.b as real + 0.587 * p.g as real + 0.299 * p.r as real <= 255.0;
    }
  }

  /** `convert_to_luminance` of a whole image, pixel by pixel. */
  function LuminanceImage(img: seq<seq<Pixel>>): (r: seq<seq<real>>)
    ensures |r| == |img| && forall y :: 0 <= y < |r| ==> |r[y]| == |img[y]|
    ensures forall y, x :: 0 <= y < |r| && 0 <= x < |r[y]| ==> r[y][x] == Luminance(img[y][x])
  {
    seq(|img|, y requires 0 <= y < |img| =>
      seq(|img[y]|, x requires 0 <= x < |img[y]| => Luminance(img[y][x])))
  }
}
