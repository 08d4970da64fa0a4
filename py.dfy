/**
 * The small part of Python's value semantics that the dashboard code relies on:
 * exceptions as a Result, floats that may be infinite, the `bool | int | str`
 * option values of the configuration, slicing that clamps instead of failing,
 * numpy's `linspace`, and the built-ins `min`, `max` and `sum` on lists.
 */
module Py {

  datatype Option<T> = None | Some(value: T)

  /** The exceptions the modelled code can raise. */
  datatype PyError =
    | ValueError
    | TypeError
    | IndexError
    | KeyError
    | ZeroDivisionError
    | NotImplementedError
    | UnboundLocalError
    | AttributeError

  /** A return value, or the exception raised instead; `:-` propagates the exception. */
  datatype Result<T> = Ok(value: T) | Err(error: PyError)
  {
    predicate IsFailure()
    {
      Err?
    }

    function PropagateFailure<U>(): Result<U>
      requires Err?
    {
      Err(error)
    }

    function Extract(): T
      requires Ok?
    {
      value
    }
  }

  /** A Python float restricted to the reals and the two infinities (no NaN). */
  datatype Ext = NegInf | Fin(v: real) | PosInf

  /** Python's `<` on such floats. */
  predicate ExtLt(a: Ext, b: Ext)
  {
    match (a, b)
    case (NegInf, NegInf) => false
    case (NegInf, _) => true
    case (Fin(u), Fin(w)) => u < w
    case (Fin(_), PosInf) => true
    case (_, _) => false
  }

  /**
   * A configuration value typed `bool | int` or `bool | str` in the source.
   * `PyBool(false)` is Python's `False`.
   */
  datatype PyVal = PyBool(b: bool) | PyInt(i: int) | PyStr(s: string)

  /** Python's identity test `v is False`. */
  predicate IsFalse(v: PyVal)
  {
    v == PyBool(false)
  }

  /** Python's equality `v == n` against an int: `False == 0` and `True == 1` hold. */
  predicate EqInt(v: PyVal, n: int)
  {
    match v
    case PyBool(b) => (if b then 1 else 0) == n
    case PyInt(i) => i == n
    case PyStr(_) => false
  }

  /** Clamps a Python slice bound into `[0, len]`, counting negative bounds from the end. */
  function SliceBound(i: int, len: nat): (k: nat)
    ensures k <= len
    ensures 0 <= i <= len ==> k == i
    ensures i > len ==> k == len
    ensures -(len as int) <= i < 0 ==> k as int == len as int + i
    ensures i < -(len as int) ==> k == 0
  {
    if i < 0 then (if i + len < 0 then 0 else i + len)
    else if i > len then len
    else i
  }

  /** Python's `s[i:j]`: out-of-range bounds are clamped, an empty range gives `[]`. */
  function PySlice<T>(s: seq<T>, i: int, j: int): (r: seq<T>)
    ensures |r| <= |s|
    ensures 0 <= i <= j <= |s| ==> r == s[i..j]
    ensures 0 <= i && |s| <= j ==> r == s[SliceBound(i, |s|)..]
    ensures j <= i && 0 <= j ==> r == []
  {
    var a := SliceBound(i, |s|);
    var b := SliceBound(j, |s|);
    if b <= a then [] else s[a..b]
  }

  /**
   * Every slice, negative bounds included: both bounds are clamped into the
   * list, negative ones counted from the end, and the slice holds the elements
   * from the first clamped bound up to the second, none when the second is not
   * past the first.
   */
  lemma PySliceClamps<T>(s: seq<T>, i: int, j: int)
    ensures var a, b := SliceBound(i, |s|), SliceBound(j, |s|);
            |PySlice(s, i, j)| == (if b <= a then 0 else b - a) &&
            forall k :: 0 <= k < |PySlice(s, i, j)| ==> PySlice(s, i, j)[k] == s[a + k]
  {
  }

  /** Python's `s[i]` with negative indices counted from the end; IndexError otherwise. */
  function PyIndex<T>(s: seq<T>, i: int): (r: Result<T>)
    ensures r.Ok? <==> -|s| <= i < |s|
    ensures 0 <= i < |s| ==> r == Ok(s[i])
    ensures -|s| <= i < 0 ==> r == Ok(s[|s| + i])
    ensures r.Err? ==> r.error == IndexError
  {
    if 0 <= i < |s| then Ok(s[i])
    else if -|s| <= i < 0 then Ok(s[|s| + i])
    else Err(IndexError)
  }

  /** `[v] * n` in Python: n copies of v, none when n <= 0. */
  function Repeat<T>(v: T, n: int): (r: seq<T>)
    ensures |r| == if n < 0 then 0 else n
    ensures forall k :: 0 <= k < |r| ==> r[k] == v
    decreases if n < 0 then 0 else n
  {
    if n <= 0 then [] else [v] + Repeat(v, n - 1)
  }

  /**
   * numpy's `linspace(start, stop, num)`: `num` evenly spaced values from start
   * to stop, both included; a negative `num` raises ValueError.
   */
  function Linspace(start: real, stop: real, num: int): (r: Result<seq<real>>)
    ensures r.Ok? <==> num >= 0
    ensures r.Ok? ==> |r.value| == num
    ensures r.Ok? && num >= 1 ==> r.value[0] == start
    ensures r.Ok? && num >= 2 ==> r.value[num - 1] == stop
    ensures r.Ok? && num >= 2 ==>
              forall k :: 0 <= k < num - 1 ==> r.value[k + 1] - r.value[k] == (stop - start) / (num - 1) as real
  {
    if num < 0 then Err(ValueError)
    else if num == 1 then Ok([start])
    else
      var step := if num >= 2 then (stop - start) / (num - 1) as real else 0.0;
      var s := seq(num, k requires 0 <= k < num => if k == num - 1 then stop else start + k as real * step);
      assert num >= 2 ==> s[num - 1] == stop;
      assert num >= 2 ==> forall k :: 0 <= k < num - 1 ==> s[k + 1] - s[k] == step by {
        if num >= 2 {
          forall k | 0 <= k < num - 1 ensures s[k + 1] - s[k] == step {
            if k == num - 2 {
              LastStep(start, stop, num);
            }
          }
        }
      }
      Ok(s)
  }

  lemma LastStep(start: real, stop: real, num: int)
    requires num >= 2
    ensures stop - (start + (num - 2) as real * ((stop - start) / (num - 1) as real)) == (stop - start) / (num - 1) as real
  {
    var d := (num - 1) as real;
    var step := (stop - start) / d;
    assert step * d == stop - start;
    calc {
      stop - (start + (num - 2) as real * step);
      == { assert (num - 2) as real == d - 1.0; }
      stop - start - (d - 1.0) * step;
      == stop - start - d * step + step;
      == step;
    }
  }

  /** A linspace over a non-negative extent is ascending and stays inside `[start, stop]`. */
  lemma {:induction false} LinspaceAscending(start: real, stop: real, num: int)
    requires start <= stop && num >= 0
    ensures Linspace(start, stop, num).Ok?
    ensures var g := Linspace(start, stop, num).value;
            (forall k :: 0 <= k < |g| - 1 ==> g[k] <= g[k + 1]) &&
            (forall k :: 0 <= k < |g| ==> start <= g[k] <= stop)
  {
    var g := Linspace(start, stop, num).value;
    if num >= 2 {
      var step := (stop - start) / (num - 1) as real;
      assert step >= 0.0;
      forall k | 0 <= k < |g| ensures start <= g[k] <= stop {
        if k < num - 1 {
          assert g[k] == start + k as real * step;
          assert (num - 1) as real * step == stop - start;
          EntryBetween(start, stop, step, k as real, (num - 1) as real, g[k]);
        } else {
          assert g[k] == stop;
        }
      }
    }
  }

  /** The k-th of m steps from start towards stop lies between them. */
  lemma EntryBetween(start: real, stop: real, step: real, k: real, m: real, v: real)
    requires v == start + k * step && 0.0 <= k <= m && 0.0 <= step && m * step == stop - start
    ensures start <= v <= stop
  {
    MulNonNegative(k, step);
    MulNonNegative(m - k, step);
    assert (m - k) * step == m * step - k * step;
  }

  lemma MulNonNegative(a: real, b: real)
    requires 0.0 <= a && 0.0 <= b
    ensures 0.0 <= a * b
  {
  }

  /** Python's `min` over a non-empty list. */
  function Min(s: seq<real>): (m: real)
    requires |s| > 0
    ensures m in s
    ensures forall k :: 0 <= k < |s| ==> m <= s[k]
  {
    if |s| == 1 then s[0]
    else
      var rest := Min(s[1..]);
      assert forall k :: 1 <= k < |s| ==> s[k] == s[1..][k - 1];
      if s[0] <= rest then s[0] else rest
  }

  /** Python's `max` over a non-empty list. */
  function Max(s: seq<real>): (m: real)
    requires |s| > 0
    ensures m in s
    ensures forall k :: 0 <= k < |s| ==> s[k] <= m
  {
    if |s| == 1 then s[0]
    else
      var rest := Max(s[1..]);
      assert forall k :: 1 <= k < |s| ==> s[k] == s[1..][k - 1];
      if s[0] >= rest then s[0] else rest
  }

  /** Python's `sum` over a list of floats. */
  function Sum(s: seq<real>): real
  {
    if |s| == 0 then 0.0 else Sum(s[..|s| - 1]) + s[|s| - 1]
  }

  /** n elements within [lo, hi] sum to a value within [n * lo, n * hi]. */
  lemma {:induction false} SumBounds(s: seq<real>, lo: real, hi: real)
    requires forall k :: 0 <= k < |s| ==> lo <= s[k] <= hi
    ensures |s| as real * lo <= Sum(s) <= |s| as real * hi
  {
    if |s| > 0 {
      SumBounds(s[..|s| - 1], lo, hi);
    }
  }

  /** `sum(s) / len(s)` of a non-empty list: the average, between the least and the greatest element. */
  function Mean(s: seq<real>): (m: real)
    requires |s| > 0
    ensures Min(s) <= m <= Max(s)
  {
    MeanBetween(s);
    Sum(s) / |s| as real
  }

  lemma MeanBetween(s: seq<real>)
    requires |s| > 0
    ensures Min(s) <= Sum(s) / |s| as real <= Max(s)
  {
    MeanWithin(s, Min(s), Max(s));
  }

  lemma MeanWithin(s: seq<real>, lo: real, hi: real)
    requires |s| > 0 && forall k :: 0 <= k < |s| ==> lo <= s[k] <= hi
    ensures lo <= Sum(s) / |s| as real <= hi
  {
    SumBounds(s, lo, hi);
    DivBetween(Sum(s), |s| as real, lo, hi);
  }

  lemma DivBetween(a: real, n: real, lo: real, hi: real)
    requires 0.0 < n && n * lo <= a <= n * hi
    ensures lo <= a / n <= hi
  {
    var q := a / n;
    assert q * n == a;
    assert (q - lo) * n == a - n * lo;
    assert (hi - q) * n == n * hi - a;
  }
}
