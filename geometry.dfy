/**
 * Geometry metrics: the skew angle from the Hough lines, the angles of the text
 * line segments, the warp index from the straightness of long segments (their
 * pixels are walked with Bresenham's algorithm) and the orientation of the
 * document's box. Edge detection, the Hough transforms, `arctan2`, `np.std` and the
 * polynomial fit are numerics of OpenCV and numpy; their results are parameters.
 */
module Geometry {
  import opened Values
  import opened MaskUtils
  import opened Stats
  import Completeness
  import Scoring

  function IAbs(a: int): (r: int)
    ensures r >= 0
  {
    if a < 0 then -a else a
  }

  // ---------------------------------------------------------------------------
  // Bresenham's walk from (x1, y1) to (x2, y2)
  // ---------------------------------------------------------------------------

  datatype Segment = Segment(x1: int, y1: int, x2: int, y2: int)

  function Dx(s: Segment): int { IAbs(s.x2 - s.x1) }
  function Dy(s: Segment): int { IAbs(s.y2 - s.y1) }
  function Sx(s: Segment): int { if s.x1 < s.x2 then 1 else -1 }
  function Sy(s: Segment): int { if s.y1 < s.y2 then 1 else -1 }

  /** The number of steps along the major axis, `max(dx, dy)`. */
  function MaxSteps(s: Segment): int { if Dx(s) >= Dy(s) then Dx(s) else Dy(s) }

  /** The unit steps from `a` to `c` in direction `dir`. */
  function StepsTo(a: int, dir: int, c: int): int { if dir == 1 then c - a else a - c }

  /** The loop's variables: the position and the error term. */
  datatype State = State(x: int, y: int, err: int)

  function Start(s: Segment): State { State(s.x1, s.y1, Dx(s) - Dy(s)) }

  /** The steps taken so far in x (`i`) and in y (`j`). */
  function I(s: Segment, st: State): int { StepsTo(s.x1, Sx(s), st.x) }
  function J(s: Segment, st: State): int { StepsTo(s.y1, Sy(s), st.y) }

  /** The steps taken along the major axis. */
  function Major(s: Segment, st: State): int { if Dx(s) >= Dy(s) then I(s, st) else J(s, st) }

  /**
   * The invariant of the walk: with `f == err - dx + dy`, `f` is `j*dx - i*dy`, and
   * `2*f` stays within `max(dx, dy)` of 0.
   */
  predicate Inv(s: Segment, st: State)
  {
    var dx, dy, i, j, f := Dx(s), Dy(s), I(s, st), J(s, st), st.err - Dx(s) + Dy(s);
    && 0 <= i <= dx && 0 <= j <= dy
    && f == j * dx - i * dy
    && -MaxSteps(s) <= 2 * f <= MaxSteps(s)
  }

  /** The loop's exit test. */
  predicate Final(s: Segment, st: State) { st.x == s.x2 && st.y == s.y2 }

  /** One pass of the loop body: both tests use `e2 = 2 * err` from before the pass. */
  function Next(s: Segment, st: State): State
  {
    var e2 := 2 * st.err;
    var x, err := if e2 > -Dy(s) then st.x + Sx(s) else st.x, if e2 > -Dy(s) then st.err - Dy(s) else st.err;
    if e2 < Dx(s) then State(x, st.y + Sy(s), err + Dx(s)) else State(x, st.y, err)
  }

  /** The three variables after a pass, each on its own. */
  lemma NextFields(s: Segment, st: State)
    ensures var n, e2 := Next(s, st), 2 * st.err;
      && n.x == (if e2 > -Dy(s) then st.x + Sx(s) else st.x)
      && n.y == (if e2 < Dx(s) then st.y + Sy(s) else st.y)
      && n.err == st.err - (if e2 > -Dy(s) then Dy(s) else 0) + (if e2 < Dx(s) then Dx(s) else 0)
  {
  }

  /** The exit test holds exactly when all `dx` and `dy` steps are taken. */
  lemma FinalSteps(s: Segment, st: State)
    ensures Final(s, st) <==> I(s, st) == Dx(s) && J(s, st) == Dy(s)
  {
  }

  /** A pass adds one step in x when `e2 > -dy` and one in y when `e2 < dx`. */
  lemma NextSteps(s: Segment, st: State)
    ensures var n, e2 := Next(s, st), 2 * st.err;
      && I(s, n) == (if e2 > -Dy(s) then I(s, st) + 1 else I(s, st))
      && J(s, n) == (if e2 < Dx(s) then J(s, st) + 1 else J(s, st))
      && n.err == st.err - (if e2 > -Dy(s) then Dy(s) else 0) + (if e2 < Dx(s) then Dx(s) else 0)
  {
  }

  lemma FactorNonNeg(a: int, k: int)
    requires a > 0 && 2 * (a * k) >= -a
    ensures k >= 0
  {
    if k < 0 { MulMono(k, -1, a); }
  }

  lemma FactorNonPos(a: int, k: int)
    requires a > 0 && 2 * (a * k) <= a
    ensures k <= 0
  {
    if k > 0 { MulMono(1, k, a); }
  }

  /** On the last column, `f == dx * (j - dy)`. */
  lemma ErrorAtLastColumn(dx: int, dy: int, j: int, f: int)
    requires 0 <= dx && 0 <= j <= dy && f == j * dx - dx * dy
    requires var m := if dx >= dy then dx else dy; -m <= 2 * f <= m
    ensures j < dy ==> f <= -dx
    ensures dx >= dy ==> j == dy
  {
    assert f == dx * (j - dy);
    if j < dy { MulMono(j - dy, -1, dx); }
    if dx >= dy && dx > 0 { FactorNonNeg(dx, j - dy); }
  }

  /** On the last row, `f == dy * (dx - i)`. */
  lemma ErrorAtLastRow(dx: int, dy: int, i: int, f: int)
    requires 0 <= dy && 0 <= i <= dx && f == dy * dx - i * dy
    requires var m := if dx >= dy then dx else dy; -m <= 2 * f <= m
    ensures i < dx ==> f >= dy
    ensures dx < dy ==> i == dx
  {
    assert f == dy * (dx - i);
    if i < dx { MulMono(1, dx - i, dy); }
    if dx < dy { FactorNonPos(dy, dx - i); }
  }

  /** On a diagonal, `f == dx * (j - i)` is small only when it is 0. */
  lemma ErrorOnDiagonal(d: int, i: int, j: int, f: int)
    requires d >= 0 && f == j * d - i * d && -d <= 2 * f <= d
    ensures f == 0
  {
    if d > 0 {
      assert f == d * (j - i);
      FactorNonNeg(d, j - i);
      FactorNonPos(d, j - i);
    }
  }

  /** The facts about `f == j*dx - i*dy` that the walk needs; the rest is linear. */
  lemma ErrorFacts(dx: int, dy: int, i: int, j: int, f: int)
    requires 0 <= i <= dx && 0 <= j <= dy
    requires f == j * dx - i * dy
    requires var m := if dx >= dy then dx else dy; -m <= 2 * f <= m
    ensures i == dx && j < dy ==> f <= -dx
    ensures j == dy && i < dx ==> f >= dy
    ensures dx >= dy && i == dx ==> j == dy
    ensures dx < dy && j == dy ==> i == dx
    ensures dx == dy ==> f == 0
    ensures j * dx - (i + 1) * dy == f - dy
    ensures (j + 1) * dx - i * dy == f + dx
    ensures (j + 1) * dx - (i + 1) * dy == f + dx - dy
  {
    if i == dx { ErrorAtLastColumn(dx, dy, j, f); }
    if j == dy { ErrorAtLastRow(dx, dy, i, f); }
    if dx == dy { ErrorOnDiagonal(dx, i, j, f); }
  }

  /** The walk is over exactly when the major axis is done. */
  lemma FinalIsMajorDone(s: Segment, st: State)
    requires Inv(s, st)
    ensures Final(s, st) <==> Major(s, st) == MaxSteps(s)
  {
    FinalSteps(s, st);
    ErrorFacts(Dx(s), Dy(s), I(s, st), J(s, st), st.err - Dx(s) + Dy(s));
  }

  /** A pass keeps the invariant, and moves one step along the major axis. */
  lemma StepKeepsInv(s: Segment, st: State)
    requires Inv(s, st) && !Final(s, st)
    ensures Inv(s, Next(s, st))
    ensures Major(s, Next(s, st)) == Major(s, st) + 1
  {
    FinalSteps(s, st);
    NextSteps(s, st);
    ErrorFacts(Dx(s), Dy(s), I(s, st), J(s, st), st.err - Dx(s) + Dy(s));
  }

  /** The passes left before the major axis is done. */
  function Remaining(s: Segment, st: State): int { MaxSteps(s) - Major(s, st) }

  /** The states of the loop: `st` and the `k` passes after it. */
  function States(s: Segment, st: State, k: nat): (r: seq<State>)
    ensures |r| == k + 1 && r[0] == st
    decreases k
  {
    if k == 0 then [st] else [st] + States(s, Next(s, st), k - 1)
  }

  /** Each state is one pass after the one before it. */
  lemma {:induction false} StatesStep(s: Segment, st: State, k: nat, n: nat)
    requires n < k
    ensures States(s, st, k)[n + 1] == Next(s, States(s, st, k)[n])
    decreases k
  {
    if n > 0 {
      StatesStep(s, Next(s, st), k - 1, n - 1);
    }
  }

  /** Along the walk the invariant holds and the passes left count down. */
  lemma {:induction false} StatesInv(s: Segment, st: State, n: nat)
    requires Inv(s, st) && n <= Remaining(s, st)
    ensures var t := States(s, st, Remaining(s, st))[n];
      Inv(s, t) && Remaining(s, t) == Remaining(s, st) - n
    decreases n
  {
    if n > 0 {
      FinalIsMajorDone(s, st);
      StepKeepsInv(s, st);
      StatesInv(s, Next(s, st), n - 1);
    }
  }

  /** The loop's variables after `n` passes from the start. */
  function Trace(s: Segment): (r: seq<State>)
  {
    States(s, Start(s), IMax(MaxSteps(s), 0))
  }

  /** The exit test first holds after `max(dx, dy)` passes. */
  lemma ExitAt(s: Segment, n: nat)
    requires n <= MaxSteps(s)
    ensures Final(s, Trace(s)[n]) <==> n == MaxSteps(s)
  {
    StartInv(s);
    StatesInv(s, Start(s), n);
    FinalIsMajorDone(s, Trace(s)[n]);
  }

  /** The points the loop visits, in order. */
  function Walk(s: Segment): (r: seq<(int, int)>)
    ensures |r| == |Trace(s)|
    ensures forall n :: 0 <= n < |r| ==> r[n] == (Trace(s)[n].x, Trace(s)[n].y)
  {
    var t := Trace(s);
    seq(|t|, n requires 0 <= n < |t| => (t[n].x, t[n].y))
  }

  /** `q` is at most one unit from `p` in x and in y. */
  predicate UnitStep(p: (int, int), q: (int, int))
  {
    IAbs(q.0 - p.0) <= 1 && IAbs(q.1 - p.1) <= 1
  }

  /** A pass moves at most one unit in x and in y. */
  lemma PointStep(s: Segment, st: State)
    ensures UnitStep((st.x, st.y), (Next(s, st).x, Next(s, st).y))
  {
  }

  lemma StartInv(s: Segment)
    ensures Inv(s, Start(s))
  {
  }

  /**
   * The source's two updates, applied to the variables after `n` passes, give the
   * variables after `n + 1` passes.
   */
  lemma Advance(s: Segment, n: nat, x0: int, y0: int, err0: int, x: int, y: int, err: int)
    requires n < MaxSteps(s)
    requires x0 == Trace(s)[n].x && y0 == Trace(s)[n].y && err0 == Trace(s)[n].err
    requires x == (if 2 * err0 > -Dy(s) then x0 + Sx(s) else x0)
    requires y == (if 2 * err0 < Dx(s) then y0 + Sy(s) else y0)
    requires err == err0 - (if 2 * err0 > -Dy(s) then Dy(s) else 0) + (if 2 * err0 < Dx(s) then Dx(s) else 0)
    ensures x == Trace(s)[n + 1].x && y == Trace(s)[n + 1].y && err == Trace(s)[n + 1].err
  {
    StatesStep(s, Start(s), MaxSteps(s), n);
    NextFields(s, Trace(s)[n]);
  }

  /**
   * The walk starts at `(x1, y1)`, ends at `(x2, y2)`, visits `max(|dx|, |dy|) + 1`
   * points, and moves at most one unit in x and in y from each point to the next.
   */
  lemma WalkShape(s: Segment)
    ensures var r := Walk(s);
      && |r| == MaxSteps(s) + 1
      && r[0] == (s.x1, s.y1)
      && r[|r| - 1] == (s.x2, s.y2)
      && forall n :: 0 <= n < |r| - 1 ==> UnitStep(r[n], r[n + 1])
  {
    var r, t := Walk(s), Trace(s);
    ExitAt(s, MaxSteps(s));
    forall n | 0 <= n < |r| - 1
      ensures UnitStep(r[n], r[n + 1])
    {
      StatesStep(s, Start(s), MaxSteps(s), n);
      PointStep(s, t[n]);
    }
  }

  /** An edge pixel of the frame: in bounds and positive. */
  predicate IsEdge(edges: seq<seq<int>>, w: nat, p: (int, int))
    requires Rect(edges, w)
  {
    0 <= p.0 < w && 0 <= p.1 < |edges| && edges[p.1][p.0] > 0
  }

  /** The list a visited point contributes: itself when it is an edge pixel. */
  function Keep(edges: seq<seq<int>>, w: nat, p: (int, int)): seq<(int, int)>
    requires Rect(edges, w)
  {
    if IsEdge(edges, w, p) then [p] else []
  }

  /** The points of `pts` that are edge pixels, in order. */
  function EdgePoints(edges: seq<seq<int>>, w: nat, pts: seq<(int, int)>): (r: seq<(int, int)>)
    requires Rect(edges, w)
    ensures |r| <= |pts|
  {
    if pts == [] then []
    else EdgePoints(edges, w, pts[..|pts| - 1]) + Keep(edges, w, pts[|pts| - 1])
  }

  /** A point is kept exactly when it is visited and is an edge pixel. */
  lemma {:induction false} EdgePointsMembers(edges: seq<seq<int>>, w: nat, pts: seq<(int, int)>, p: (int, int))
    requires Rect(edges, w)
    ensures p in EdgePoints(edges, w, pts) <==> p in pts && IsEdge(edges, w, p)
  {
    if pts != [] {
      var n := |pts| - 1;
      EdgePointsMembers(edges, w, pts[..n], p);
      assert pts == pts[..n] + [pts[n]];
    }
  }

  /** One more visited point extends the kept list by what that point contributes. */
  lemma KeepOne(edges: seq<seq<int>>, w: nat, pts: seq<(int, int)>, n: nat,
                before: seq<(int, int)>, after: seq<(int, int)>)
    requires Rect(edges, w) && n < |pts|
    requires before == EdgePoints(edges, w, pts[..n])
    requires after == before + Keep(edges, w, pts[n])
    ensures after == EdgePoints(edges, w, pts[..n + 1])
  {
    assert pts[..n + 1][..n] == pts[..n];
  }

  /**
   * Visiting the point after `n` passes extends the kept list by that point's share;
   * the exit test holds there only after the last pass, where the list is complete.
   */
  lemma Visit(edges: seq<seq<int>>, w: nat, s: Segment, n: nat, x: int, y: int,
              before: seq<(int, int)>, after: seq<(int, int)>)
    requires Rect(edges, w) && n <= MaxSteps(s)
    requires x == Trace(s)[n].x && y == Trace(s)[n].y
    requires before == EdgePoints(edges, w, Walk(s)[..n])
    requires after == before + Keep(edges, w, (x, y))
    ensures after == EdgePoints(edges, w, Walk(s)[..n + 1])
    ensures x == s.x2 && y == s.y2 <==> n == MaxSteps(s)
    ensures n == MaxSteps(s) ==> after == LinePixels(edges, w, s)
  {
    KeepOne(edges, w, Walk(s), n, before, after);
    ExitAt(s, n);
    assert Walk(s)[..|Walk(s)|] == Walk(s);
  }

  /** The pixels `_extract_line_pixels` returns for a segment. */
  function LinePixels(edges: seq<seq<int>>, w: nat, s: Segment): seq<(int, int)>
    requires Rect(edges, w)
  {
    EdgePoints(edges, w, Walk(s))
  }

  /** `_extract_line_pixels`: walks the segment and keeps the edge pixels it visits. */
  method ExtractLinePixels(edges: seq<seq<int>>, w: nat, start: (int, int), end: (int, int))
    returns (pixels: seq<(int, int)>)
    requires Rect(edges, w)
    ensures pixels == LinePixels(edges, w, Segment(start.0, start.1, end.0, end.1))
  {
    var x1, y1 := start.0, start.1;
    var x2, y2 := end.0, end.1;
    ghost var s := Segment(x1, y1, x2, y2);
    pixels := [];
    var dx := IAbs(x2 - x1);
    var dy := IAbs(y2 - y1);
    var sx := if x1 < x2 then 1 else -1;
    var sy := if y1 < y2 then 1 else -1;
    var err := dx - dy;
    var x, y := x1, y1;
    assert dx == Dx(s) && dy == Dy(s) && sx == Sx(s) && sy == Sy(s);
    ghost var n := 0;
    while true
      invariant 0 <= n <= MaxSteps(s)
      invariant x == Trace(s)[n].x && y == Trace(s)[n].y && err == Trace(s)[n].err
      invariant pixels == EdgePoints(edges, w, Walk(s)[..n])
      decreases MaxSteps(s) - n
    {
      ghost var before := pixels;
      if 0 <= x < w && 0 <= y < |edges| {
        if edges[y][x] > 0 {
          pixels := pixels + [(x, y)];
        }
      }
      Visit(edges, w, s, n, x, y, before, pixels);
      if x == x2 && y == y2 {
        break;
      }
      ghost var x0, y0, err0 := x, y, err;
      var e2 := 2 * err;
      if e2 > -dy {
        err := err - dy;
        x := x + sx;
      }
      if e2 < dx {
        err := err + dx;
        y := y + sy;
      }
      Advance(s, n, x0, y0, err0, x, y, err);
      n := n + 1;
    }
  }

  // ---------------------------------------------------------------------------
  // Skew angle from the Hough lines
  // ---------------------------------------------------------------------------

  /**
   * The angles the loop keeps: `degrees(theta) - 90` for each Hough line, when it
   * lies in [-45, 45]. `thetaDeg` holds `np.degrees(theta)` for each line.
   */
  function KeptAngles(thetaDeg: seq<real>): (r: seq<real>)
    ensures |r| <= |thetaDeg|
  {
    if thetaDeg == [] then []
    else
      var a := thetaDeg[|thetaDeg| - 1] - 90.0;
      KeptAngles(thetaDeg[..|thetaDeg| - 1]) + (if -45.0 <= a <= 45.0 then [a] else [])
  }

  /** An angle is kept exactly when it lies in [-45, 45] and comes from one of the lines. */
  lemma {:induction false} KeptAnglesMembers(thetaDeg: seq<real>, a: real)
    ensures a in KeptAngles(thetaDeg) <==> a + 90.0 in thetaDeg && -45.0 <= a <= 45.0
  {
    if thetaDeg != [] {
      var n := |thetaDeg| - 1;
      KeptAnglesMembers(thetaDeg[..n], a);
      assert thetaDeg == thetaDeg[..n] + [thetaDeg[n]];
    }
  }

  /** `_detect_skew_angle`; `None` stands for `lines is None`. */
  function SkewAngle(lines: Option<seq<real>>): real
  {
    if lines.None? || |lines.value| == 0 then 0.0
    else
      var angles := KeptAngles(lines.value);
      if |angles| == 0 then 0.0 else Median(angles)
  }

  /** The skew always lies in [-45, 45]. */
  lemma SkewBounds(lines: Option<seq<real>>)
    ensures -45.0 <= SkewAngle(lines) <= 45.0
  {
    if lines.Some? && |KeptAngles(lines.value)| > 0 {
      var angles := KeptAngles(lines.value);
      forall i | 0 <= i < |angles|
        ensures -45.0 <= angles[i] <= 45.0
      {
        KeptAnglesMembers(lines.value, angles[i]);
      }
      MedianBetween(angles, -45.0, 45.0);
    }
  }

  /** No line, or no line within 45 degrees of horizontal, gives a skew of 0.0. */
  lemma {:induction false} SkewFallback(lines: Option<seq<real>>)
    requires lines.Some? ==> forall i :: 0 <= i < |lines.value| ==> !(45.0 <= lines.value[i] <= 135.0)
    ensures SkewAngle(lines) == 0.0
  {
    if lines.Some? && KeptAngles(lines.value) != [] {
      var a := KeptAngles(lines.value)[0];
      KeptAnglesMembers(lines.value, a);
    }
  }

  /** `_detect_skew_angle`'s loop over the lines. */
  method DetectSkewAngle(lines: Option<seq<real>>) returns (r: real)
    ensures r == SkewAngle(lines)
  {
    if lines.None? || |lines.value| == 0 {
      return 0.0;
    }
    var ts := lines.value;
    var angles := [];
    var i := 0;
    while i < |ts|
      invariant 0 <= i <= |ts|
      invariant angles == KeptAngles(ts[..i])
    {
      assert ts[..i + 1][..i] == ts[..i];
      var angleDeg := ts[i] - 90.0;
      if -45.0 <= angleDeg <= 45.0 {
        angles := angles + [angleDeg];
      }
      i := i + 1;
    }
    assert ts[..i] == ts;
    if |angles| == 0 {
      return 0.0;
    }
    r := Median(angles);
  }

  // ---------------------------------------------------------------------------
  // Text line angles from the line segments
  // ---------------------------------------------------------------------------

  /** The shift that brings an angle above 45 or below -45 degrees back by 90. */
  function NormalizeAngle(a: real): real
  {
    if a > 45.0 then a - 90.0 else if a < -45.0 then a + 90.0 else a
  }

  /**
   * An angle is shifted by 90 degrees at most once: it is left alone exactly when
   * it lies in [-45, 45], and one shift lands it in [-45, 45] when it lies in
   * [-135, 135]. An angle of `arctan2` in (135, 180] or [-180, -135) (a segment
   * pointing left) ends up in (45, 90] or [-90, -45).
   */
  lemma NormalizeShift(a: real)
    ensures var r := NormalizeAngle(a);
      && (r == a - 90.0 || r == a || r == a + 90.0)
      && (r == a <==> -45.0 <= a <= 45.0)
      && (-135.0 <= a <= 135.0 ==> -45.0 <= r <= 45.0)
      && (135.0 < a <= 180.0 ==> 45.0 < r <= 90.0)
      && (-180.0 <= a < -135.0 ==> -90.0 <= r < -45.0)
  {
  }

  /**
   * The angles `_detect_text_line_angles` collects: one per segment that is not
   * vertical, in order. `atan2Deg(dy, dx)` stands for `np.degrees(np.arctan2(dy, dx))`.
   */
  function SegmentAngle(g: Segment, atan2Deg: (int, int) -> real): real
  {
    NormalizeAngle(atan2Deg(g.y2 - g.y1, g.x2 - g.x1))
  }

  function LineAngles(segs: seq<Segment>, atan2Deg: (int, int) -> real): (r: seq<real>)
    ensures |r| <= |segs|
  {
    if segs == [] then []
    else
      var g := segs[|segs| - 1];
      LineAngles(segs[..|segs| - 1], atan2Deg) +
        (if g.x2 - g.x1 != 0 then [SegmentAngle(g, atan2Deg)] else [])
  }

  /** The number of segments that are not vertical. */
  function CountSloped(segs: seq<Segment>): nat
  {
    if segs == [] then 0
    else CountSloped(segs[..|segs| - 1]) + (if segs[|segs| - 1].x2 != segs[|segs| - 1].x1 then 1 else 0)
  }

  /**
   * Vertical segments are skipped and every other one gives exactly one angle, the
   * normalised angle of that segment.
   */
  lemma {:induction false} LineAnglesCount(segs: seq<Segment>, atan2Deg: (int, int) -> real)
    ensures |LineAngles(segs, atan2Deg)| == CountSloped(segs)
  {
    if segs != [] {
      LineAnglesCount(segs[..|segs| - 1], atan2Deg);
    }
  }

  /** Each collected angle is the normalised angle of some non-vertical segment. */
  lemma {:induction false} LineAnglesFrom(segs: seq<Segment>, atan2Deg: (int, int) -> real, a: real)
    requires a in LineAngles(segs, atan2Deg)
    ensures exists i :: 0 <= i < |segs| && segs[i].x2 != segs[i].x1 && a == SegmentAngle(segs[i], atan2Deg)
  {
    var n := |segs| - 1;
    if a in LineAngles(segs[..n], atan2Deg) {
      LineAnglesFrom(segs[..n], atan2Deg, a);
      var i :| 0 <= i < n && segs[..n][i].x2 != segs[..n][i].x1 && a == SegmentAngle(segs[..n][i], atan2Deg);
      assert segs[..n][i] == segs[i];
    }
  }

  /** Each non-vertical segment contributes its normalised angle. */
  lemma {:induction false} LineAnglesTo(segs: seq<Segment>, atan2Deg: (int, int) -> real, i: nat)
    requires i < |segs| && segs[i].x2 != segs[i].x1
    ensures SegmentAngle(segs[i], atan2Deg) in LineAngles(segs, atan2Deg)
  {
    var n := |segs| - 1;
    if i < n {
      assert segs[..n][i] == segs[i];
      LineAnglesTo(segs[..n], atan2Deg, i);
    }
  }

  /** `_detect_text_line_angles`; `None` stands for `lines is None`. */
  method DetectTextLineAngles(lines: Option<seq<Segment>>, atan2Deg: (int, int) -> real)
    returns (angles: seq<real>)
    ensures angles == if lines.None? then [] else LineAngles(lines.value, atan2Deg)
  {
    angles := [];
    if lines.None? {
      return;
    }
    var segs := lines.value;
    var i := 0;
    while i < |segs|
      invariant 0 <= i <= |segs|
      invariant angles == LineAngles(segs[..i], atan2Deg)
    {
      assert segs[..i + 1][..i] == segs[..i];
      var g := segs[i];
      if g.x2 - g.x1 != 0 {
        var angleDeg := atan2Deg(g.y2 - g.y1, g.x2 - g.x1);
        if angleDeg > 45.0 {
          angleDeg := angleDeg - 90.0;
        } else if angleDeg < -45.0 {
          angleDeg := angleDeg + 90.0;
        }
        angles := angles + [angleDeg];
      }
      i := i + 1;
    }
    assert segs[..i] == segs;
  }

  // ---------------------------------------------------------------------------
  // Warp index from the straightness of long segments
  // ---------------------------------------------------------------------------

  /**
   * `_measure_line_curvature`. `fit(pixels)` is the root mean square deviation from
   * numpy's quadratic fit, or `None` where `polyfit` raises `LinAlgError`.
   */
  function Curvature(pixels: seq<(int, int)>, fit: seq<(int, int)> -> Option<real>): real
  {
    if |pixels| < 3 then 0.0
    else match fit(pixels)
      case None => 0.0
      case Some(rms) => rms
  }

  const MinLinePixels: int := 20

  /** The scores of the segments with at least 20 edge pixels, in order. */
  function WarpScores(edges: seq<seq<int>>, w: nat, segs: seq<Segment>, fit: seq<(int, int)> -> Option<real>)
    : (r: seq<real>)
    requires Rect(edges, w)
    ensures |r| <= |segs|
  {
    if segs == [] then []
    else
      var px := LinePixels(edges, w, segs[|segs| - 1]);
      WarpScores(edges, w, segs[..|segs| - 1], fit) + (if |px| < MinLinePixels then [] else [Curvature(px, fit)])
  }

  /** `_estimate_warp_index`; `None` stands for `lines is None`. */
  function WarpIndex(edges: seq<seq<int>>, w: nat, lines: Option<seq<Segment>>, fit: seq<(int, int)> -> Option<real>)
    : real
    requires Rect(edges, w)
  {
    if lines.None? || |lines.value| < 3 then 0.0
    else
      var scores := WarpScores(edges, w, lines.value, fit);
      if scores == [] then 0.0 else Mean(scores)
  }

  /** With fewer than three segments, or none, the warp index is 0.0. */
  lemma WarpFewLines(edges: seq<seq<int>>, w: nat, lines: Option<seq<Segment>>, fit: seq<(int, int)> -> Option<real>)
    requires Rect(edges, w)
    requires lines.None? || |lines.value| < 3
    ensures WarpIndex(edges, w, lines, fit) == 0.0
  {
  }

  /** Segments with fewer than 20 edge pixels add no score. */
  lemma {:induction false} ShortSegmentsSkipped(edges: seq<seq<int>>, w: nat, segs: seq<Segment>,
                                               fit: seq<(int, int)> -> Option<real>)
    requires Rect(edges, w)
    requires forall i :: 0 <= i < |segs| ==> |LinePixels(edges, w, segs[i])| < MinLinePixels
    ensures WarpScores(edges, w, segs, fit) == []
  {
    if segs != [] {
      var n := |segs| - 1;
      assert forall i :: 0 <= i < n ==> segs[..n][i] == segs[i];
      ShortSegmentsSkipped(edges, w, segs[..n], fit);
    }
  }

  /** `c` is the score of `g`, a segment with at least 20 edge pixels. */
  predicate LongSegmentScore(edges: seq<seq<int>>, w: nat, g: Segment, fit: seq<(int, int)> -> Option<real>, c: real)
    requires Rect(edges, w)
  {
    var px := LinePixels(edges, w, g);
    |px| >= MinLinePixels && c == Curvature(px, fit)
  }

  /** Each score is the curvature of a segment with at least 20 edge pixels. */
  lemma {:induction false} WarpScoresFrom(edges: seq<seq<int>>, w: nat, segs: seq<Segment>,
                                         fit: seq<(int, int)> -> Option<real>, c: real)
    requires Rect(edges, w)
    requires c in WarpScores(edges, w, segs, fit)
    ensures exists i :: 0 <= i < |segs| && LongSegmentScore(edges, w, segs[i], fit, c)
  {
    var n := |segs| - 1;
    if c in WarpScores(edges, w, segs[..n], fit) {
      WarpScoresFrom(edges, w, segs[..n], fit, c);
      var i :| 0 <= i < n && LongSegmentScore(edges, w, segs[..n][i], fit, c);
      assert segs[..n][i] == segs[i];
    }
  }

  /**
   * When every fit lies in [0, hi], so does the warp index: 0.0 means straight, and
   * a warped page never scores above the worst of its segments' bound.
   */
  lemma WarpBounds(edges: seq<seq<int>>, w: nat, lines: Option<seq<Segment>>,
                   fit: seq<(int, int)> -> Option<real>, hi: real)
    requires Rect(edges, w) && hi >= 0.0
    requires forall p :: fit(p).Some? ==> 0.0 <= fit(p).value <= hi
    ensures 0.0 <= WarpIndex(edges, w, lines, fit) <= hi
  {
    if lines.Some? && |lines.value| >= 3 {
      var scores := WarpScores(edges, w, lines.value, fit);
      if scores != [] {
        forall i | 0 <= i < |scores|
          ensures 0.0 <= scores[i] <= hi
        {
          WarpScoresFrom(edges, w, lines.value, fit, scores[i]);
        }
        MeanBetween(scores, 0.0, hi);
      }
    }
  }

  /** One more segment adds its score when it has at least 20 edge pixels. */
  lemma WarpScoresStep(edges: seq<seq<int>>, w: nat, segs: seq<Segment>, fit: seq<(int, int)> -> Option<real>,
                       i: nat, before: seq<real>, px: seq<(int, int)>, after: seq<real>)
    requires Rect(edges, w) && i < |segs|
    requires before == WarpScores(edges, w, segs[..i], fit)
    requires px == LinePixels(edges, w, Segment(segs[i].x1, segs[i].y1, segs[i].x2, segs[i].y2))
    requires after == before + (if |px| < MinLinePixels then [] else [Curvature(px, fit)])
    ensures after == WarpScores(edges, w, segs[..i + 1], fit)
  {
    assert segs[..i + 1][..i] == segs[..i];
  }

  /** `_estimate_warp_index`'s loop over the segments. */
  method EstimateWarpIndex(edges: seq<seq<int>>, w: nat, lines: Option<seq<Segment>>,
                           fit: seq<(int, int)> -> Option<real>) returns (r: real)
    requires Rect(edges, w)
    ensures r == WarpIndex(edges, w, lines, fit)
  {
    if lines.None? || |lines.value| < 3 {
      return 0.0;
    }
    var segs := lines.value;
    var warpScores := [];
    var i := 0;
    while i < |segs|
      invariant 0 <= i <= |segs|
      invariant warpScores == WarpScores(edges, w, segs[..i], fit)
    {
      ghost var before := warpScores;
      var g := segs[i];
      var linePixels := ExtractLinePixels(edges, w, (g.x1, g.y1), (g.x2, g.y2));
      if |linePixels| >= MinLinePixels {
        warpScores := warpScores + [Curvature(linePixels, fit)];
      }
      WarpScoresStep(edges, w, segs, fit, i, before, linePixels, warpScores);
      i := i + 1;
    }
    assert segs[..i] == segs;
    if |warpScores| == 0 {
      return 0.0;
    }
    r := Sum(warpScores) / |warpScores| as real;
  }

  // ---------------------------------------------------------------------------
  // Orientation of the document's box
  // ---------------------------------------------------------------------------

  datatype Orientation = Landscape | Portrait | Square

  datatype OrientationResult = OrientationResult(
    aspectRatio: real, orientation: Orientation, docWidthPx: int, docHeightPx: int)

  /** `_analyze_document_orientation`. */
  function AnalyzeOrientation(mask: seq<seq<int>>, w: nat): OrientationResult
  {
    var b := DocumentBbox(mask, w);
    OrientationOfBox(b.xMax - b.xMin, b.yMax - b.yMin)
  }

  /** The ratio and orientation of a box of the given width and height. */
  function OrientationOfBox(docWidth: int, docHeight: int): OrientationResult
  {
    var aspect := if docHeight == 0 then 0.0 else docWidth as real / docHeight as real;
    var orientation := if aspect > 1.2 then Landscape else if aspect < 0.8 then Portrait else Square;
    OrientationResult(aspect, orientation, docWidth, docHeight)
  }

  /**
   * The three bands: above 1.2 is landscape, below 0.8 portrait, and [0.8, 1.2]
   * square; the ratio is width over height, and 0.0 (so portrait) at height 0.
   */
  lemma OrientationBands(mask: seq<seq<int>>, w: nat)
    ensures var r := AnalyzeOrientation(mask, w);
      && (r.orientation == Landscape <==> r.aspectRatio > 1.2)
      && (r.orientation == Portrait <==> r.aspectRatio < 0.8)
      && (r.orientation == Square <==> 0.8 <= r.aspectRatio <= 1.2)
      && (r.docHeightPx != 0 ==> r.aspectRatio * r.docHeightPx as real == r.docWidthPx as real)
      && (r.docHeightPx == 0 ==> r.aspectRatio == 0.0 && r.orientation == Portrait)
  {
    var b := DocumentBbox(mask, w);
    BoxOrientationBands(b.xMax - b.xMin, b.yMax - b.yMin);
  }

  lemma BoxOrientationBands(docWidth: int, docHeight: int)
    ensures var r := OrientationOfBox(docWidth, docHeight);
      && r.docWidthPx == docWidth && r.docHeightPx == docHeight
      && (r.orientation == Landscape <==> r.aspectRatio > 1.2)
      && (r.orientation == Portrait <==> r.aspectRatio < 0.8)
      && (r.orientation == Square <==> 0.8 <= r.aspectRatio <= 1.2)
      && (docHeight != 0 ==> r.aspectRatio * docHeight as real == docWidth as real)
      && (docHeight == 0 ==> r.aspectRatio == 0.0 && r.orientation == Portrait)
  {
    if docHeight != 0 {
      assert docWidth as real / docHeight as real * docHeight as real == docWidth as real;
    }
  }

  /** The box, its width, height and ratio are those the completeness metrics report. */
  lemma OrientationMatchesCompleteness(mask: seq<seq<int>>, w: nat, m: int)
    requires Rect(mask, w)
    ensures var r, c := AnalyzeOrientation(mask, w), Completeness.ComputeWithMargin(mask, w, m);
      r.aspectRatio == c.aspectRatio && r.docWidthPx == c.width && r.docHeightPx == c.height
  {
    if exists y, x :: On(mask, y, x) {
      var y, x :| On(mask, y, x);
      BboxIsExtent(mask, w, y, x);
    }
  }

  /**
   * A document whose pixels all lie on one row has a box of height 0 (the box's
   * maximum is inclusive), so it is reported as portrait, however wide it is.
   */
  lemma OneRowIsPortrait(mask: seq<seq<int>>, w: nat, y0: int, x0: int)
    requires Rect(mask, w) && On(mask, y0, x0)
    requires forall y, x :: On(mask, y, x) ==> y == y0
    ensures AnalyzeOrientation(mask, w).docHeightPx == 0
    ensures AnalyzeOrientation(mask, w).orientation == Portrait
  {
    BboxIsExtent(mask, w, y0, x0);
  }

  /** For a frame-shaped mask the ratio is never negative. */
  lemma AspectNonNegative(mask: seq<seq<int>>, w: nat)
    requires Rect(mask, w)
    ensures AnalyzeOrientation(mask, w).aspectRatio >= 0.0
  {
    if exists y, x :: On(mask, y, x) {
      var y, x :| On(mask, y, x);
      BboxIsExtent(mask, w, y, x);
    }
  }

  // ---------------------------------------------------------------------------
  // GeometryMetrics.compute
  // ---------------------------------------------------------------------------

  datatype GeometryResult = GeometryResult(
    skewAngleDeg: real,
    skewAngleAbs: real,
    detectedLines: nat,
    angleStd: real,
    angleRange: real,
    warpIndex: real,
    orientation: OrientationResult)

  /** The outputs of the three Hough transforms and the numerics `compute` relies on. */
  datatype Detections = Detections(
    skewThetaDeg: Option<seq<real>>,
    textSegments: Option<seq<Segment>>,
    atan2Deg: (int, int) -> real,
    angleStd: real,
    warpEdges: seq<seq<int>>,
    warpSegments: Option<seq<Segment>>,
    fit: seq<(int, int)> -> Option<real>)

  /**
   * `GeometryMetrics.compute`. `np.std` of the text line angles is `d.angleStd`;
   * the range is `np.ptp`; both are 0.0 when no angle was collected.
   */
  function Compute(mask: seq<seq<int>>, w: nat, d: Detections): GeometryResult
    requires Rect(d.warpEdges, w)
  {
    var skew := SkewAngle(d.skewThetaDeg);
    var angles := if d.textSegments.None? then [] else LineAngles(d.textSegments.value, d.atan2Deg);
    GeometryResult(
      skew, Abs(skew), |angles|,
      if |angles| > 0 then d.angleStd else 0.0,
      if |angles| > 0 then Range(angles) else 0.0,
      WarpIndex(d.warpEdges, w, d.warpSegments, d.fit),
      AnalyzeOrientation(mask, w))
  }

  const SkewDegKey: string := "skew_angle_deg"
  const SkewAbsKey: string := "skew_angle_abs"

  function OrientationName(o: Orientation): string
  {
    match o
    case Landscape => "landscape"
    case Portrait => "portrait"
    case Square => "square"
  }

  /** The metrics dict the scorer reads. */
  function ToValue(r: GeometryResult): Value
  {
    Obj([
      (SkewDegKey, Num(r.skewAngleDeg)),
      (SkewAbsKey, Num(r.skewAngleAbs)),
      ("line_angles", Obj([("detected_lines", Num(r.detectedLines as real)),
                           ("angle_std", Num(r.angleStd)),
                           ("angle_range", Num(r.angleRange))])),
      ("warp_index", Num(r.warpIndex)),
      ("orientation", Obj([("aspect_ratio", Num(r.orientation.aspectRatio)),
                           ("orientation", Str(OrientationName(r.orientation.orientation))),
                           ("doc_width_px", Num(r.orientation.docWidthPx as real)),
                           ("doc_height_px", Num(r.orientation.docHeightPx as real))]))
    ])
  }

  /** `skew_angle_abs` is the absolute skew and lies in [0, 45]; the range is never negative. */
  lemma ComputeBounds(mask: seq<seq<int>>, w: nat, d: Detections)
    requires Rect(d.warpEdges, w)
    ensures var r := Compute(mask, w, d);
      && -45.0 <= r.skewAngleDeg <= 45.0
      && r.skewAngleAbs == Abs(r.skewAngleDeg) && 0.0 <= r.skewAngleAbs <= 45.0
      && r.angleRange >= 0.0
      && r.detectedLines == (if d.textSegments.None? then 0 else CountSloped(d.textSegments.value))
  {
    SkewBounds(d.skewThetaDeg);
    if d.textSegments.Some? {
      LineAnglesCount(d.textSegments.value, d.atan2Deg);
    }
  }

  /** The scorer grades the geometry by `skew_angle_abs`, the absolute skew. */
  lemma ScoredBySkew(r: GeometryResult, cfg: Value)
    ensures Scoring.ScoreGeometry(ToValue(r), cfg) ==
      Scoring.LowerIsBetter(r.skewAngleAbs, NumOr(cfg, "max_skew_deg_pass", 1.0), NumOr(cfg, "max_skew_deg_warn", 3.0))
  {
    var v := ToValue(r);
    assert v.fields[0].0 != SkewAbsKey by { assert SkewDegKey[11] != SkewAbsKey[11]; }
    assert v.fields[1..][0] == (SkewAbsKey, Num(r.skewAngleAbs));
    assert Get(v.fields[1..], SkewAbsKey) == Some(Num(r.skewAngleAbs));
    assert Lookup(v, SkewAbsKey) == Some(Num(r.skewAngleAbs));
  }

  /**
   * Without Hough lines the skew is 0.0, which passes whenever neither limit is
   * negative; and since the skew never exceeds 45 degrees, a warn limit of at
   * least 45 means the geometry never fails.
   */
  lemma GeometryVerdicts(mask: seq<seq<int>>, w: nat, d: Detections, cfg: Value)
    requires Rect(d.warpEdges, w)
    ensures var v := ToValue(Compute(mask, w, d));
      && (d.skewThetaDeg.None? && NumOr(cfg, "max_skew_deg_pass", 1.0) >= 0.0 &&
          NumOr(cfg, "max_skew_deg_warn", 3.0) >= 0.0 ==>
            Scoring.ScoreGeometry(v, cfg) == Scoring.Pass)
      && (NumOr(cfg, "max_skew_deg_warn", 3.0) >= 45.0 ==> Scoring.ScoreGeometry(v, cfg) != Scoring.Fail)
  {
    ComputeBounds(mask, w, d);
    ScoredBySkew(Compute(mask, w, d), cfg);
  }
}
