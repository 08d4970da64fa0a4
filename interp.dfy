/**
 * The two searches the refresh cycle runs on ascending sequences, and numpy's
 * piecewise-linear `interp`.
 */
module Interp {
  import opened Py

  ghost predicate Ascending(s: seq<real>)
  {
    forall i, j :: 0 <= i <= j < |s| ==> s[i] <= s[j]
  }

  ghost predicate StrictlyAscending(s: seq<real>)
  {
    forall i, j :: 0 <= i < j < |s| ==> s[i] < s[j]
  }

  /** Index of the rightmost element among the first n that is <= q, or 0 when there is none. */
  function LastAtMost(s: seq<real>, q: real, n: nat): (i: nat)
    requires n <= |s|
    ensures (exists k :: 0 <= k < n && s[k] <= q) ==> i < n && s[i] <= q && forall k :: i < k < n ==> q < s[k]
    ensures (forall k :: 0 <= k < n ==> q < s[k]) ==> i == 0
  {
    if n == 0 then 0
    else if s[n - 1] <= q then n - 1
    else LastAtMost(s, q, n - 1)
  }

  /**
   * `idx_next_smaller(s, q)`: the latest position of s that q fully covers, that is
   * the index of the rightmost element <= q; 0 when every element exceeds q.
   */
  function IdxNextSmaller(s: seq<real>, q: real): (i: nat)
    ensures (exists k :: 0 <= k < |s| && s[k] <= q) ==> i < |s| && s[i] <= q && forall k :: i < k < |s| ==> q < s[k]
    ensures (forall k :: 0 <= k < |s| ==> q < s[k]) ==> i == 0
  {
    LastAtMost(s, q, |s|)
  }

  /** A larger query never gives a smaller index: checkpoints derived from growing data only advance. */
  lemma IdxNextSmallerMonotone(s: seq<real>, q1: real, q2: real)
    requires q1 <= q2
    ensures IdxNextSmaller(s, q1) <= IdxNextSmaller(s, q2)
  {
    var i1, i2 := IdxNextSmaller(s, q1), IdxNextSmaller(s, q2);
    if exists k :: 0 <= k < |s| && s[k] <= q1 {
      assert s[i1] <= q2;
    }
  }

  /** On an ascending sequence, a query equal to the last copy of an element gives that element's index. */
  lemma IdxNextSmallerExact(s: seq<real>, j: nat)
    requires Ascending(s) && j < |s|
    requires j + 1 == |s| || s[j] < s[j + 1]
    ensures IdxNextSmaller(s, s[j]) == j
  {
    assert s[j] <= s[j];
  }

  /** Index of the first element among s[k..] that is >= q, or |s| when there is none. */
  function FirstAtLeast(s: seq<real>, q: real, k: nat): (i: nat)
    requires k <= |s|
    ensures k <= i <= |s|
    ensures forall m :: k <= m < i ==> s[m] < q
    ensures i < |s| ==> q <= s[i]
    decreases |s| - k
  {
    if k == |s| then |s|
    else if q <= s[k] then k
    else FirstAtLeast(s, q, k + 1)
  }

  /**
   * `np.searchsorted(s, q) - 1` (side "left"): on an ascending s, the index of the
   * last element strictly below q, and -1 when q is at or below every element.
   */
  function SearchsortedMinusOne(s: seq<real>, q: real): (i: int)
    ensures -1 <= i < |s|
    ensures Ascending(s) ==> (i == -1 <==> (forall k :: 0 <= k < |s| ==> q <= s[k]))
    ensures Ascending(s) && 0 <= i ==> s[i] < q && (i + 1 < |s| ==> q <= s[i + 1])
  {
    FirstAtLeast(s, q, 0) - 1
  }

  /** The strict search stops one short of the inclusive one exactly at a grid value. */
  lemma StrictSearchAtGridValue(s: seq<real>, j: nat)
    requires StrictlyAscending(s) && 0 < j < |s|
    ensures SearchsortedMinusOne(s, s[j]) == j - 1
    ensures IdxNextSmaller(s, s[j]) == j
  {
    IdxNextSmallerExact(s, j);
  }

  /** Linear blend between two control points, evaluated at q. */
  function Blend(x0: real, x1: real, y0: real, y1: real, q: real): real
    requires x0 < x1
  {
    y0 + (q - x0) * ((y1 - y0) / (x1 - x0))
  }

  /**
   * `np.interp` at one query: fp's first value left of xp, its last value right of
   * xp, and otherwise the blend on the segment that starts at the rightmost
   * control abscissa <= q (the segment numpy's binary search selects).
   */
  function InterpAt(xp: seq<real>, fp: seq<real>, q: real): real
    requires |xp| == |fp| > 0
  {
    var last := |xp| - 1;
    if q > xp[last] then fp[last]
    else if q < xp[0] then fp[0]
    else
      var j := IdxNextSmaller(xp, q);
      if j == last || xp[j] == q then fp[j]
      else Blend(xp[j], xp[j + 1], fp[j], fp[j + 1], q)
  }

  /** Below the first control abscissa the first value is held. */
  lemma InterpHoldsLeft(xp: seq<real>, fp: seq<real>, q: real)
    requires |xp| == |fp| > 0 && Ascending(xp) && q < xp[0]
    ensures InterpAt(xp, fp, q) == fp[0]
  {
    assert xp[0] <= xp[|xp| - 1];
  }

  /** At and beyond the last control abscissa the last value is held: no extrapolation. */
  lemma InterpHoldsRight(xp: seq<real>, fp: seq<real>, q: real)
    requires |xp| == |fp| > 0 && Ascending(xp) && xp[|xp| - 1] <= q
    ensures InterpAt(xp, fp, q) == fp[|fp| - 1]
  {
    assert xp[0] <= xp[|xp| - 1];
  }

  /** On ascending abscissas, inside a segment [xp[j], xp[j+1]) the result is that segment's blend. */
  lemma InterpBetween(xp: seq<real>, fp: seq<real>, j: nat, q: real)
    requires |xp| == |fp| && j + 1 < |xp| && Ascending(xp)
    requires xp[j] <= q < xp[j + 1]
    ensures InterpAt(xp, fp, q) == Blend(xp[j], xp[j + 1], fp[j], fp[j + 1], q)
  {
    assert xp[0] <= xp[j] && xp[j + 1] <= xp[|xp| - 1];
    assert xp[j] <= q;
  }

  /** On strictly ascending abscissas every control point is reproduced exactly. */
  lemma InterpAtControlPoint(xp: seq<real>, fp: seq<real>, j: nat)
    requires |xp| == |fp| && j < |xp| && StrictlyAscending(xp)
    ensures InterpAt(xp, fp, xp[j]) == fp[j]
  {
    assert xp[0] <= xp[j] <= xp[|xp| - 1];
    IdxNextSmallerExact(xp, j);
  }

  /** The interpolant never leaves the range of the control values. */
  lemma InterpWithinValues(xp: seq<real>, fp: seq<real>, q: real, lo: real, hi: real)
    requires |xp| == |fp| > 0
    requires forall k :: 0 <= k < |fp| ==> lo <= fp[k] <= hi
    ensures lo <= InterpAt(xp, fp, q) <= hi
  {
    var last := |xp| - 1;
    if q <= xp[last] && xp[0] <= q {
      var j := IdxNextSmaller(xp, q);
      if j < last && xp[j] != q {
        BlendWithin(xp[j], xp[j + 1], fp[j], fp[j + 1], q, lo, hi);
      }
    }
  }

  lemma BlendWithin(x0: real, x1: real, y0: real, y1: real, q: real, lo: real, hi: real)
    requires x0 <= q < x1
    requires lo <= y0 <= hi && lo <= y1 <= hi
    ensures lo <= Blend(x0, x1, y0, y1, q) <= hi
  {
    var d := x1 - x0;
    var t := (q - x0) / d;
    assert t * d == q - x0;
    assert 0.0 <= t;
    assert t < 1.0;
    assert (q - x0) * ((y1 - y0) / d) == t * (y1 - y0);
    assert Blend(x0, x1, y0, y1, q) == (1.0 - t) * y0 + t * y1;
    MulNonNegative(1.0 - t, y0 - lo);
    MulNonNegative(1.0 - t, hi - y0);
    MulNonNegative(t, y1 - lo);
    MulNonNegative(t, hi - y1);
  }

  /**
   * `np.interp(xq, xp, fp)` on a list of queries: ValueError when xp is empty or
   * xp and fp differ in length; otherwise one interpolated value per query.
   */
  function InterpAll(xq: seq<real>, xp: seq<real>, fp: seq<real>): (r: Result<seq<real>>)
    ensures r.Ok? <==> |xp| == |fp| > 0
    ensures r.Ok? ==> |r.value| == |xq| && forall k :: 0 <= k < |xq| ==> r.value[k] == InterpAt(xp, fp, xq[k])
  {
    if |xp| == 0 || |xp| != |fp| then Err(ValueError)
    else Ok(seq(|xq|, k requires 0 <= k < |xq| => InterpAt(xp, fp, xq[k])))
  }

  /**
   * The worked example: raw points (0,0),(1,2),(2,4),(3,6) and the grid [0, 1.5, 3].
   * The grid value 1.5 interpolates to 3.0. The inclusive search counts the grid
   * point 3 as covered by the raw point at x = 3 (index 2); the strict
   * `searchsorted - 1` variant stops at index 1.
   */
  lemma WorkedExample()
    ensures InterpAt([0.0, 1.0, 2.0, 3.0], [0.0, 2.0, 4.0, 6.0], 1.5) == 3.0
    ensures IdxNextSmaller([0.0, 1.5, 3.0], 3.0) == 2
    ensures SearchsortedMinusOne([0.0, 1.5, 3.0], 3.0) == 1
  {
    var xp := [0.0, 1.0, 2.0, 3.0];
    assert LastAtMost(xp, 1.5, 4) == LastAtMost(xp, 1.5, 3) == LastAtMost(xp, 1.5, 2) == 1;
    var g := [0.0, 1.5, 3.0];
    assert FirstAtLeast(g, 3.0, 0) == FirstAtLeast(g, 3.0, 1) == FirstAtLeast(g, 3.0, 2) == 2;
  }
}
