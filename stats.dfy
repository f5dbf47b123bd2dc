/**
 * The numpy statistics the metrics take of a list of numbers, where the model
 * defines them exactly: median, minimum, maximum, peak-to-peak range and mean.
 */
module Stats {
  import opened Values

  predicate SortedReals(xs: seq<real>)
  {
    forall i, j :: 0 <= i < j < |xs| ==> xs[i] <= xs[j]
  }

  /** Inserts `x` into a sorted list. */
  function Insert(x: real, xs: seq<real>): (r: seq<real>)
    ensures multiset(r) == multiset(xs) + multiset{x}
  {
    if xs == [] then [x]
    else if x <= xs[0] then [x] + xs
    else
      assert xs == [xs[0]] + xs[1..];
      [xs[0]] + Insert(x, xs[1..])
  }

  lemma ConsSorted(a: real, t: seq<real>)
    requires SortedReals(t) && (t != [] ==> a <= t[0])
    ensures SortedReals([a] + t)
  {
  }

  lemma {:induction false} InsertSorted(x: real, xs: seq<real>)
    requires SortedReals(xs)
    ensures SortedReals(Insert(x, xs))
  {
    if xs != [] && x > xs[0] {
      var rest := xs[1..];
      InsertSorted(x, rest);
      var t := Insert(x, rest);
      assert t[0] == x || t[0] == rest[0];
      ConsSorted(xs[0], t);
    }
  }

  /** The values of `xs` in ascending order. */
  function SortReals(xs: seq<real>): (r: seq<real>)
    ensures multiset(r) == multiset(xs) && |r| == |xs|
  {
    if xs == [] then []
    else
      assert xs == xs[..|xs| - 1] + [xs[|xs| - 1]];
      var r := Insert(xs[|xs| - 1], SortReals(xs[..|xs| - 1]));
      assert |r| == |multiset(r)|;
      r
  }

  lemma {:induction false} SortSorted(xs: seq<real>)
    ensures SortedReals(SortReals(xs))
  {
    if xs != [] {
      SortSorted(xs[..|xs| - 1]);
      InsertSorted(xs[|xs| - 1], SortReals(xs[..|xs| - 1]));
    }
  }

  /** `np.median`: the middle value, or the mean of the two middle values. */
  function Median(xs: seq<real>): real
    requires xs != []
  {
    var t := SortReals(xs);
    var n := |t|;
    if n % 2 == 1 then t[n / 2] else (t[n / 2 - 1] + t[n / 2]) / 2.0
  }

  /** Every value of the sorted list is a value of the input. */
  lemma SortedMember(xs: seq<real>, i: nat)
    requires i < |xs|
    ensures SortReals(xs)[i] in xs
  {
    var t := SortReals(xs);
    assert t[i] in multiset(t);
  }

  /** The median lies between the least and the greatest value. */
  lemma MedianBetween(xs: seq<real>, lo: real, hi: real)
    requires xs != []
    requires forall i :: 0 <= i < |xs| ==> lo <= xs[i] <= hi
    ensures lo <= Median(xs) <= hi
  {
    var n := |xs|;
    SortedMember(xs, n / 2);
    if n % 2 == 0 {
      SortedMember(xs, n / 2 - 1);
    }
  }

  /** The largest and the least value of a non-empty list. */
  function MaxOf(xs: seq<real>): (r: real)
    requires xs != []
    ensures forall i :: 0 <= i < |xs| ==> xs[i] <= r
    ensures r in xs
  {
    if |xs| == 1 then xs[0] else Max(MaxOf(xs[..|xs| - 1]), xs[|xs| - 1])
  }

  function MinOf(xs: seq<real>): (r: real)
    requires xs != []
    ensures forall i :: 0 <= i < |xs| ==> r <= xs[i]
    ensures r in xs
  {
    if |xs| == 1 then xs[0] else Min(MinOf(xs[..|xs| - 1]), xs[|xs| - 1])
  }

  /** `np.ptp`: the greatest value minus the least, never negative. */
  function Range(xs: seq<real>): (r: real)
    requires xs != []
    ensures r >= 0.0
    ensures forall i, j :: 0 <= i < |xs| && 0 <= j < |xs| ==> xs[i] - xs[j] <= r
  {
    MaxOf(xs) - MinOf(xs)
  }

  function Mean(xs: seq<real>): real
    requires xs != []
  {
    Sum(xs) / |xs| as real
  }

  lemma {:induction false} SumBetween(xs: seq<real>, lo: real, hi: real)
    requires forall i :: 0 <= i < |xs| ==> lo <= xs[i] <= hi
    ensures |xs| as real * lo <= Sum(xs) <= |xs| as real * hi
  {
    if xs != [] {
      var n := |xs| - 1;
      SumBetween(xs[..n], lo, hi);
      assert (n + 1) as real * lo == n as real * lo + lo;
      assert (n + 1) as real * hi == n as real * hi + hi;
    }
  }

  lemma DivBetween(a: real, n: real, lo: real, hi: real)
    requires n > 0.0 && n * lo <= a <= n * hi
    ensures lo <= a / n <= hi
  {
    var q := a / n;
    assert q * n == a;
    if q < lo { MulMonoReal(q, lo, n); }
    if q > hi { MulMonoReal(hi, q, n); }
  }

  lemma MulMonoReal(a: real, b: real, t: real)
    requires a < b && t > 0.0
    ensures a * t < b * t
  {
  }

  /** The mean lies between any bounds of its values. */
  lemma MeanBetween(xs: seq<real>, lo: real, hi: real)
    requires xs != []
    requires forall i :: 0 <= i < |xs| ==> lo <= xs[i] <= hi
    ensures lo <= Mean(xs) <= hi
  {
    SumBetween(xs, lo, hi);
    DivBetween(Sum(xs), |xs| as real, lo, hi);
  }

  // ---------------------------------------------------------------------------
  // np.percentile, with numpy's default linear interpolation

  /** The fractional index `p / 100 * (n - 1)` lies in `[0, n - 1]` for `0 <= p <= 100`. */
  lemma RankBounds(p: real, n: nat)
    requires 0.0 <= p <= 100.0 && n > 0
    ensures 0.0 <= p / 100.0 * (n - 1) as real <= (n - 1) as real
  {
    var f := p / 100.0;
    assert 0.0 <= f <= 1.0;
    MulLeOne(f, (n - 1) as real);
    assert f * (n - 1) as real == p / 100.0 * (n - 1) as real;
  }

  lemma MulLeOne(f: real, a: real)
    requires 0.0 <= f <= 1.0 && a >= 0.0
    ensures 0.0 <= f * a <= a
  {
  }

  /** The fractional index of percentile `p` in `n` sorted values. */
  function Rank(p: real, n: nat): (r: real)
    requires 0.0 <= p <= 100.0 && n > 0
    ensures 0.0 <= r <= (n - 1) as real
  {
    RankBounds(p, n);
    p / 100.0 * (n - 1) as real
  }

  /** The value at fractional index `rank` of `s`, interpolated linearly between its two neighbours. */
  function Interpolate(s: seq<real>, rank: real): real
    requires s != [] && 0.0 <= rank <= (|s| - 1) as real
  {
    var lo := rank.Floor;
    var hi := IMin(lo + 1, |s| - 1);
    s[lo] + (s[hi] - s[lo]) * (rank - lo as real)
  }

  /** `np.percentile(xs, p)`, numpy's default linear method. */
  function Percentile(xs: seq<real>, p: real): real
    requires xs != [] && 0.0 <= p <= 100.0
  {
    Interpolate(SortReals(xs), Rank(p, |xs|))
  }

  lemma LerpBetween(a: real, b: real, t: real)
    requires a <= b && 0.0 <= t <= 1.0
    ensures a <= a + (b - a) * t <= b
  {
    MulLeOne(t, b - a);
    var m := (b - a) * t;
    assert m == t * (b - a);
    assert 0.0 <= m <= b - a;
  }

  lemma LerpMono(a: real, b: real, t1: real, t2: real)
    requires a <= b && t1 <= t2
    ensures a + (b - a) * t1 <= a + (b - a) * t2
  {
    assert (b - a) * t2 - (b - a) * t1 == (b - a) * (t2 - t1);
    MulNonNeg(b - a, t2 - t1);
  }

  lemma MulNonNeg(a: real, b: real)
    requires a >= 0.0 && b >= 0.0
    ensures a * b >= 0.0
  {
  }

  /** An interpolated value lies between the two sorted neighbours of its index. */
  lemma InterpolateBetween(s: seq<real>, rank: real)
    requires s != [] && 0.0 <= rank <= (|s| - 1) as real && SortedReals(s)
    ensures var lo := rank.Floor;
      s[lo] <= Interpolate(s, rank) <= s[IMin(lo + 1, |s| - 1)]
  {
    var lo := rank.Floor;
    LerpBetween(s[lo], s[IMin(lo + 1, |s| - 1)], rank - lo as real);
  }

  /** On sorted values, interpolation is monotone in the index. */
  lemma InterpolateMono(s: seq<real>, r1: real, r2: real)
    requires s != [] && 0.0 <= r1 <= r2 <= (|s| - 1) as real && SortedReals(s)
    ensures Interpolate(s, r1) <= Interpolate(s, r2)
  {
    var l1, l2 := r1.Floor, r2.Floor;
    var h1 := IMin(l1 + 1, |s| - 1);
    if l1 == l2 {
      LerpMono(s[l1], s[h1], r1 - l1 as real, r2 - l2 as real);
    } else {
      InterpolateBetween(s, r1);
      InterpolateBetween(s, r2);
      assert s[h1] <= s[l2];
    }
  }

  /** A percentile lies within the values' extremes. */
  lemma PercentileBetween(xs: seq<real>, p: real)
    requires xs != [] && 0.0 <= p <= 100.0
    ensures MinOf(xs) <= Percentile(xs, p) <= MaxOf(xs)
  {
    var s := SortReals(xs);
    var rank := Rank(p, |xs|);
    SortSorted(xs);
    InterpolateBetween(s, rank);
    SortedMember(xs, rank.Floor);
    SortedMember(xs, IMin(rank.Floor + 1, |xs| - 1));
  }

  lemma RankMono(p: real, q: real, n: nat)
    requires 0.0 <= p <= q <= 100.0 && n > 0
    ensures Rank(p, n) <= Rank(q, n)
  {
    var d := (q - p) / 100.0;
    assert Rank(q, n) - Rank(p, n) == d * (n - 1) as real;
    MulNonNeg(d, (n - 1) as real);
  }

  /** `np.percentile` is monotone in the percentile. */
  lemma PercentileMono(xs: seq<real>, p: real, q: real)
    requires xs != [] && 0.0 <= p <= q <= 100.0
    ensures Percentile(xs, p) <= Percentile(xs, q)
  {
    RankMono(p, q, |xs|);
    SortSorted(xs);
    InterpolateMono(SortReals(xs), Rank(p, |xs|), Rank(q, |xs|));
  }
}
