/**
 * The axis-range normaliser: a zero-anchored padded range for one axis, and the
 * ratio matching of two such ranges that puts the zero lines of a primary and a
 * secondary axis at the same height.
 */
module AxisRanges {
  import opened Py

  /** Padding factor the refresh cycle passes to `SingleRange`. */
  const Factor: real := 0.1

  /** The four candidate bounds of a single-axis range. */
  function Candidates(max: real, min: real, factor: real): seq<real>
  {
    [(1.0 + factor) * max, -factor * max, (1.0 + factor) * min, -factor * min]
  }

  /**
   * `determine_single_range(MAX, MIN, factor)`: ValueError exactly when MAX < MIN;
   * otherwise `[lo, hi]`, the least and the greatest of the four candidates.
   */
  function SingleRange(max: real, min: real, factor: real): (r: Result<(real, real)>)
    ensures r.Err? <==> max < min
    ensures r.Err? ==> r.error == ValueError
    ensures r.Ok? ==> var (lo, hi) := r.value;
              lo <= hi && lo in Candidates(max, min, factor) && hi in Candidates(max, min, factor) &&
              (forall c :: c in Candidates(max, min, factor) ==> lo <= c <= hi)
  {
    if max < min then Err(ValueError)
    else
      var c := Candidates(max, min, factor);
      Ok((Min(c), Max(c)))
  }

  /** With a non-negative factor the range contains zero and the data range [MIN, MAX]. */
  lemma SingleRangeContains(max: real, min: real, factor: real)
    requires min <= max && 0.0 <= factor
    ensures SingleRange(max, min, factor).Ok?
    ensures var (lo, hi) := SingleRange(max, min, factor).value;
            lo <= 0.0 <= hi && lo <= min && max <= hi
  {
    var c := Candidates(max, min, factor);
    var r := SingleRange(max, min, factor);
    assert c[0] in c && c[1] in c && c[2] in c && c[3] in c;
    var lo, hi := r.value.0, r.value.1;
    assert lo <= c[2] && lo <= c[3] && c[0] <= hi && c[1] <= hi;
    var fmax, fmin := factor * max, factor * min;
    assert c[0] == max + fmax && c[1] == -fmax;
    assert c[2] == min + fmin && c[3] == -fmin;
    if max >= 0.0 {
      MulNonNegative(factor, max);
    } else {
      MulNonNegative(factor, -max);
    }
    if min >= 0.0 {
      MulNonNegative(factor, min);
    } else {
      MulNonNegative(factor, -min);
    }
  }

  /** A zero-anchored data range gives a range that straddles zero unless both ends are 0. */
  lemma SingleRangeStraddles(max: real, min: real, factor: real)
    requires min <= 0.0 <= max && 0.0 < factor
    ensures SingleRange(max, min, factor).Ok?
    ensures var (lo, hi) := SingleRange(max, min, factor).value;
            if min == max then lo == 0.0 && hi == 0.0 else lo < 0.0 < hi
  {
    var c := Candidates(max, min, factor);
    assert c[0] in c && c[1] in c && c[2] in c && c[3] in c;
    if min != max {
      if max > 0.0 {
        assert c[1] < 0.0 < c[0];
      } else {
        assert c[2] < 0.0 < c[3];
      }
    } else {
      assert c == [0.0, 0.0, 0.0, 0.0];
    }
  }

  /** `determine_single_range(MAX=10, MIN=-2, factor=0.1)` is `[-2.2, 11]`. */
  lemma SingleRangeExample()
    ensures SingleRange(10.0, -2.0, 0.1) == Ok((-2.2, 11.0))
  {
    var c := Candidates(10.0, -2.0, 0.1);
    assert c == [11.0, -1.0, -2.2, 0.2];
    assert c[2] in c && c[0] in c;
  }

  /** Above-zero to below-zero span ratio of a range. */
  function Ratio(lo: real, hi: real): real
    requires lo < 0.0
  {
    hi / -lo
  }

  /**
   * One range of `determine_mixed_range` with the common ratio rbar: the lower
   * bound is scaled by r/rbar when the ratio r exceeds rbar, the upper bound by
   * rbar/r when r falls short of it, and nothing changes when they are equal.
   */
  function MixSide(lo: real, hi: real, rbar: real): (real, real)
    requires lo < 0.0 < hi && 0.0 < rbar
  {
    var r := Ratio(lo, hi);
    if r > rbar then ((r / rbar) * lo, hi)
    else if r < rbar then (lo, (rbar / r) * hi)
    else (lo, hi)
  }

  /** After mixing, a range's ratio is exactly rbar. */
  lemma MixSideRatio(lo: real, hi: real, rbar: real)
    requires lo < 0.0 < hi && 0.0 < rbar
    ensures var (lo', hi') := MixSide(lo, hi, rbar); lo' < 0.0 && Ratio(lo', hi') == rbar
  {
    var r := Ratio(lo, hi);
    assert r * -lo == hi;
    var (lo', hi') := MixSide(lo, hi, rbar);
    if r > rbar {
      var k := r / rbar;
      assert k * rbar == r;
      assert -lo' == k * -lo;
      assert rbar * -lo' == r * -lo;
      assert hi' / -lo' == rbar;
    } else if r < rbar {
      var k := rbar / r;
      assert k * r == rbar;
      assert hi' == k * (r * -lo);
      assert hi' == rbar * -lo;
    }
  }

  /**
   * Mixing never shrinks a range, and changes at most one bound: the lower one when
   * the ratio exceeds rbar, the upper one when it falls short, neither when equal.
   */
  lemma MixSideExpands(lo: real, hi: real, rbar: real)
    requires lo < 0.0 < hi && 0.0 < rbar
    ensures var (lo', hi') := MixSide(lo, hi, rbar);
            lo' <= lo && hi <= hi' &&
            (Ratio(lo, hi) > rbar ==> lo' < lo && hi' == hi) &&
            (Ratio(lo, hi) < rbar ==> lo' == lo && hi < hi') &&
            (Ratio(lo, hi) == rbar ==> lo' == lo && hi' == hi)
  {
    var r := Ratio(lo, hi);
    if r > rbar {
      var k := r / rbar;
      assert k * rbar == r;
      assert k > 1.0;
      assert k * lo < 1.0 * lo;
    } else if r < rbar {
      assert r > 0.0;
      var k := rbar / r;
      assert k * r == rbar;
      assert k > 1.0;
      assert k * hi > 1.0 * hi;
    }
  }

  /**
   * With the geometric mean rbar (rbar > 0, rbar * rbar == r1 * r2), the first
   * ratio exceeds rbar exactly when the second falls short of it, so the two
   * ranges grow on opposite sides of zero.
   */
  lemma GeometricMeanSplits(r1: real, r2: real, rbar: real)
    requires 0.0 < r1 && 0.0 < r2 && 0.0 < rbar && rbar * rbar == r1 * r2
    ensures r1 > rbar <==> r2 < rbar
    ensures r1 == rbar <==> r2 == rbar
  {
    if r1 > rbar {
      assert r1 * r2 > rbar * r2;
      assert rbar * rbar > rbar * r2;
    }
    if r2 < rbar {
      assert r1 * r2 < r1 * rbar;
      assert rbar * rbar < r1 * rbar;
    }
    if r1 == rbar {
      assert rbar * rbar == rbar * r2;
    }
    if r2 == rbar {
      assert rbar * rbar == r1 * rbar;
    }
  }

  /** The four bounds of a call whose two ranges both straddle zero. */
  ghost predicate MixReady(rng1: seq<real>, rng2: seq<real>, rbar: real)
  {
    |rng1| == 2 && |rng2| == 2 && rng1[0] < 0.0 < rng1[1] && rng2[0] < 0.0 < rng2[1] && 0.0 < rbar
  }

  /**
   * `determine_mixed_range(RNG1, RNG2)` with the geometric mean supplied as rbar:
   * both lists are updated in place as `MixSide` says and the same two lists are
   * returned.
   */
  method MixedRange(rng1: array<real>, rng2: array<real>, rbar: real) returns (out1: array<real>, out2: array<real>)
    requires rng1 != rng2 && MixReady(rng1[..], rng2[..], rbar)
    modifies rng1, rng2
    ensures out1 == rng1 && out2 == rng2
    ensures (rng1[0], rng1[1]) == MixSide(old(rng1[0]), old(rng1[1]), rbar)
    ensures (rng2[0], rng2[1]) == MixSide(old(rng2[0]), old(rng2[1]), rbar)
  {
    var (lo1, hi1) := MixSide(rng1[0], rng1[1], rbar);
    var (lo2, hi2) := MixSide(rng2[0], rng2[1], rbar);
    rng1[0], rng1[1] := lo1, hi1;
    rng2[0], rng2[1] := lo2, hi2;
    out1, out2 := rng1, rng2;
  }

  /** The two mixed ranges end with equal ratios and neither loses any of its data. */
  lemma MixedRangesMatch(lo1: real, hi1: real, lo2: real, hi2: real, rbar: real)
    requires lo1 < 0.0 < hi1 && lo2 < 0.0 < hi2 && 0.0 < rbar
    requires rbar * rbar == Ratio(lo1, hi1) * Ratio(lo2, hi2)
    ensures var (a1, b1) := MixSide(lo1, hi1, rbar);
            var (a2, b2) := MixSide(lo2, hi2, rbar);
            a1 < 0.0 && a2 < 0.0 && Ratio(a1, b1) == Ratio(a2, b2) == rbar &&
            a1 <= lo1 && hi1 <= b1 && a2 <= lo2 && hi2 <= b2
    ensures Ratio(lo1, hi1) > rbar <==> Ratio(lo2, hi2) < rbar
  {
    MixSideRatio(lo1, hi1, rbar);
    MixSideRatio(lo2, hi2, rbar);
    MixSideExpands(lo1, hi1, rbar);
    MixSideExpands(lo2, hi2, rbar);
    DivPositive(hi1, -lo1);
    DivPositive(hi2, -lo2);
    GeometricMeanSplits(Ratio(lo1, hi1), Ratio(lo2, hi2), rbar);
  }

  lemma DivPositive(a: real, b: real)
    requires 0.0 < a && 0.0 < b
    ensures 0.0 < a / b
  {
  }
}
