/**
 * The refresh cycle of one flexible graph. For every configured trace it turns
 * the data that arrived since the trace's checkpoint into patch edits (raw
 * points, or the downsampling grid with interpolated values), advances the
 * checkpoint, consumes the one-shot min/max flags and moves the extremum lines.
 * When any flag was set it then emits zero-anchored y-axis limits; with two y
 * axes the two ranges are matched so that their zero lines line up. The patch
 * it returns, however, is a fixed debug patch: the one it built is discarded,
 * while the checkpoint and flag updates persist.
 */
module Callbacks {
  import opened Py
  import opened Interp
  import opened AxisRanges
  import opened SetupConfig
  import opened Name2Id
  import opened DataStore
  import opened Patches
  import Flexgraph

  /** The newest raw index both x and y hold: `min(len x, len y) - 1`. */
  function Newest(d: TraceData): (i: int)
    ensures |d.x| <= |d.y| ==> i == |d.x| - 1
    ensures |d.y| <= |d.x| ==> i == |d.y| - 1
  {
    (if |d.x| < |d.y| then |d.x| else |d.y|) - 1
  }

  /**
   * The data section without downsampling, given the previous checkpoint: when the
   * newest raw index is past it, the main trace is extended by the raw points
   * after it, the endpoint marker shows the newest point twice, and the band
   * traces get the same slice of x with the band values. The new checkpoint is
   * the newest raw index, or None when nothing is new. TypeError when a band
   * list is missing.
   */
  function RawUpdate(tc: TraceConfig, n: nat, d: TraceData, t2id: seq<RoleIds>, prev: int): (r: Result<(Patch, Option<int>)>)
    requires |d.x| > 0 && |d.y| > 0
    ensures r.Ok? && r.value.1.Some? ==> r.value.1.value == Newest(d) > prev
  {
    var newest := Newest(d);
    if newest <= prev then Ok(([], None))
    else
      var ids :- PyIndex(t2id, n);
      var xs := PySlice(d.x, prev + 1, newest + 1);
      var main := [Extend(ids.main, X, xs), Extend(ids.main, Y, PySlice(d.y, prev + 1, newest + 1))];
      var point := if tc.point then [Assign(ids.point, X, Repeat(d.x[newest], 2)), Assign(ids.point, Y, Repeat(d.y[newest], 2))] else [];
      if !tc.errors then Ok((main + point, Some(newest)))
      else if d.ylo.None? || d.yhi.None? then Err(TypeError)
      else
        var bands := [Extend(ids.lo, X, xs), Extend(ids.lo, Y, PySlice(d.ylo.value, prev + 1, newest + 1)),
                      Extend(ids.hi, X, xs), Extend(ids.hi, Y, PySlice(d.yhi.value, prev + 1, newest + 1))];
        Ok((main + point + bands, Some(newest)))
  }

  /**
   * The data section with downsampling, given the previous checkpoint: the new
   * checkpoint is the last grid point the raw data covers; when it is past the
   * previous one, the grid points after the previous checkpoint are appended with y
   * interpolated over the raw points from the one covering the first new grid
   * point to the newest, the endpoint marker's x moves to the new grid point,
   * and the bands are interpolated on the same grid. TypeError without a grid or
   * a band list; IndexError or the ValueError of `np.interp` as Python raises them.
   */
  function DownUpdate(tc: TraceConfig, n: nat, d: TraceData, t2id: seq<RoleIds>, prev: int): (r: Result<(Patch, Option<int>)>)
    requires |d.x| > 0 && |d.y| > 0
    ensures r.Ok? && r.value.1.Some? ==> r.value.1.value > prev
  {
    if d.xdown.None? then Err(TypeError)
    else
      var grid := d.xdown.value;
      var next := IdxNextSmaller(grid, d.x[Newest(d)]);
      if next <= prev then Ok(([], None))
      else
        var first :- PyIndex(grid, prev + 1);
        var p :- GridEdits(tc, n, d, t2id, prev, next, IdxNextSmaller(d.x, first));
        Ok((p, Some(next)))
  }

  /**
   * The edits of a downsampled update from grid index prev to next, the raw
   * points from index oldest to the newest being the interpolation's control
   * points.
   */
  function GridEdits(tc: TraceConfig, n: nat, d: TraceData, t2id: seq<RoleIds>, prev: int, next: int, oldest: nat): (r: Result<Patch>)
    requires |d.x| > 0 && |d.y| > 0 && d.xdown.Some?
  {
    var grid := d.xdown.value;
    var gs := PySlice(grid, prev + 1, next + 1);
    var xs := PySlice(d.x, oldest, Newest(d) + 1);
    var yd :- InterpAll(gs, xs, PySlice(d.y, oldest, Newest(d) + 1));
    var ids :- PyIndex(t2id, n);
    var main := [Extend(ids.main, X, gs), Extend(ids.main, Y, yd)];
    var point :- if tc.point then
                    var e :- PyIndex(grid, next);
                    Ok([Assign(ids.point, X, Repeat(e, 2))])
                  else Ok([]);
    if !tc.errors then Ok(main + point)
    else
      var bands :- BandEdits(ids, d, gs, xs, oldest);
      Ok(main + point + bands)
  }

  /** Four band edits: each band's x extended by the grid slice gs and its y by as many values. */
  predicate BandShape(ids: RoleIds, gs: seq<real>, b: Patch)
  {
    |b| == 4 &&
    b[0] == Extend(ids.lo, X, gs) && b[2] == Extend(ids.hi, X, gs) &&
    b[1].Extend? && b[1].trace == ids.lo && b[1].field == Y && |b[1].values| == |gs| &&
    b[3].Extend? && b[3].trace == ids.hi && b[3].field == Y && |b[3].values| == |gs|
  }

  /** The band edits of a downsampled update: TypeError without a band list, else both bands on the same grid slice. */
  function BandEdits(ids: RoleIds, d: TraceData, gs: seq<real>, xs: seq<real>, oldest: nat): (r: Result<Patch>)
    requires |d.x| > 0 && |d.y| > 0
    ensures d.ylo.None? ==> r == Err(TypeError)
    ensures r.Ok? ==> d.ylo.Some? && d.yhi.Some? && BandShape(ids, gs, r.value)
  {
    if d.ylo.None? then Err(TypeError)
    else
      var lod :- InterpAll(gs, xs, PySlice(d.ylo.value, oldest, Newest(d) + 1));
      if d.yhi.None? then Err(TypeError)
      else
        var hid :- InterpAll(gs, xs, PySlice(d.yhi.value, oldest, Newest(d) + 1));
        Ok([Extend(ids.lo, X, gs), Extend(ids.lo, Y, lod), Extend(ids.hi, X, gs), Extend(ids.hi, Y, hid)])
  }

  /**
   * The data section of trace n: reads the checkpoint (IndexError when the list
   * is too short) and runs the raw or the downsampled update as `nxdown is
   * False` says. A new checkpoint is always past the previous one.
   */
  function DataUpdate(cfg: GraphConfig, n: nat, d: TraceData, t2id: seq<RoleIds>, chkp: seq<int>): (r: Result<(Patch, Option<int>)>)
    requires n < |cfg.traces| && |d.x| > 0 && |d.y| > 0
    ensures r.Ok? ==> n < |chkp|
    ensures r.Ok? && r.value.1.Some? ==> r.value.1.value > chkp[n]
    ensures n >= |chkp| ==> r == Err(IndexError)
  {
    var prev :- PyIndex(chkp, n);
    if IsFalse(cfg.nxdown) then RawUpdate(cfg.traces[n], n, d, t2id, prev)
    else DownUpdate(cfg.traces[n], n, d, t2id, prev)
  }

  /**
   * The extremum-line section of trace n, once it is known whether the min
   * line (showMin) and the max line (showMax) move: the min line moves to
   * ymin and its annotation shows ymin, moves there and becomes visible;
   * likewise for the maximum. IndexError for a trace position without ids.
   */
  function LineEdits(n: nat, showMin: bool, showMax: bool, ymin: Ext, ymax: Ext,
                     t2id: seq<RoleIds>, a2id: seq<RoleIds>): (r: Result<Patch>)
  {
    var minOps :- if showMin then
                    var ids :- PyIndex(t2id, n);
                    var an :- PyIndex(a2id, n);
                    Ok([AssignLevel(ids.minline, ymin), AnnotText(an.minline, "minimum", ymin),
                        AnnotY(an.minline, ymin), AnnotVisible(an.minline, true)])
                  else Ok([]);
    var maxOps :- if showMax then
                    var ids :- PyIndex(t2id, n);
                    var an :- PyIndex(a2id, n);
                    Ok([AssignLevel(ids.maxline, ymax), AnnotText(an.maxline, "maximum", ymax),
                        AnnotY(an.maxline, ymax), AnnotVisible(an.maxline, true)])
                  else Ok([]);
    Ok(minOps + maxOps)
  }

  /**
   * The extremum-line section as written: the lines of trace n move when
   * `showmin == n` (or `showmax == n`) and the extremum is new. This is
   * Python equality against an int, so False selects trace 0 and the
   * "traceX" string the figure builder reads selects no trace.
   */
  function LineUpdateAsWritten(cfg: GraphConfig, n: nat, hasMin: bool, hasMax: bool, ymin: Ext, ymax: Ext,
                               t2id: seq<RoleIds>, a2id: seq<RoleIds>): (r: Result<Patch>)
  {
    LineEdits(n, EqInt(cfg.showmin, n) && hasMin, EqInt(cfg.showmax, n) && hasMax, ymin, ymax, t2id, a2id)
  }

  /**
   * The extremum-line section the cycle runs: the lines of trace n move when
   * `showmin` (or `showmax`) names trace n the way the figure builder reads
   * it, by the digit its string ends in, and the extremum is new.
   */
  function LineUpdate(cfg: GraphConfig, n: nat, hasMin: bool, hasMax: bool, ymin: Ext, ymax: Ext,
                      t2id: seq<RoleIds>, a2id: seq<RoleIds>): (r: Result<Patch>)
  {
    LineEdits(n, Flexgraph.Shows(cfg.showmin, n) && hasMin, Flexgraph.Shows(cfg.showmax, n) && hasMax, ymin, ymax, t2id, a2id)
  }

  /** The state the trace loop carries: the edits so far, `anyMinMaxChange`, the trace stores and the checkpoints. */
  datatype Progress = Progress(ops: Patch, anyChange: bool, data: seq<TraceData>, chkp: seq<int>)

  /** A state, and the exception that stopped the cycle there, if one did. */
  datatype Outcome = Outcome(p: Progress, failure: Option<PyError>)

  /** What one trace's iteration leaves: its store, the checkpoints, the edits, `anyMinMaxChange`, and an exception. */
  datatype TraceOutcome = TraceOutcome(d: TraceData, chkp: seq<int>, ops: Patch, anyChange: bool, failure: Option<PyError>)

  /**
   * The body of the trace loop for trace n with store d. A trace without x or
   * without y is skipped. Otherwise the data section runs (an exception there
   * leaves the checkpoint and the flags as they were), the checkpoint is
   * advanced, both flags are read and cleared, and the extremum-line section
   * runs.
   */
  function TraceStep(cfg: GraphConfig, t2id: seq<RoleIds>, a2id: seq<RoleIds>, n: nat, d: TraceData,
                     chkp: seq<int>, ops: Patch, anyChange: bool): (t: TraceOutcome)
    requires n < |cfg.traces|
  {
    if |d.x| == 0 || |d.y| == 0 then TraceOutcome(d, chkp, ops, anyChange, None)
    else
      var u := DataUpdate(cfg, n, d, t2id, chkp);
      if u.Err? then TraceOutcome(d, chkp, ops, anyChange, Some(u.error))
      else
        var chkp' := if u.value.1.Some? then chkp[n := u.value.1.value] else chkp;
        var d' := d.(ynewmin := false, ynewmax := false);
        var any' := anyChange || d.ynewmin || d.ynewmax;
        var l := LineUpdate(cfg, n, d.ynewmin, d.ynewmax, d.ymin, d.ymax, t2id, a2id);
        if l.Err? then TraceOutcome(d', chkp', ops + u.value.0, any', Some(l.error))
        else TraceOutcome(d', chkp', ops + u.value.0 + l.value, any', None)
  }

  /** The body only clears flags of the store and only advances checkpoint n. */
  lemma TraceStepFrame(cfg: GraphConfig, t2id: seq<RoleIds>, a2id: seq<RoleIds>, n: nat, d: TraceData,
                       chkp: seq<int>, ops: Patch, anyChange: bool)
    requires n < |cfg.traces|
    ensures var t := TraceStep(cfg, t2id, a2id, n, d, chkp, ops, anyChange);
            SameButFlags(t.d, d) && |t.chkp| == |chkp| &&
            (forall i :: 0 <= i < |chkp| && i != n ==> t.chkp[i] == chkp[i]) &&
            (n < |chkp| ==> chkp[n] <= t.chkp[n])
  {
  }

  /**
   * One iteration of the trace loop: IndexError when there is no store for the
   * trace (a position past the configured traces, which the loop never reaches,
   * raises it too), else `TraceStep` on the trace's store.
   */
  function Step(cfg: GraphConfig, t2id: seq<RoleIds>, a2id: seq<RoleIds>, p: Progress, n: nat): (o: Outcome)
    ensures n >= |p.data| ==> o == Outcome(p, Some(IndexError))
  {
    if n >= |cfg.traces| || n >= |p.data| then Outcome(p, Some(IndexError))
    else
      var t := TraceStep(cfg, t2id, a2id, n, p.data[n], p.chkp, p.ops, p.anyChange);
      Outcome(Progress(t.ops, t.anyChange, p.data[n := t.d], t.chkp), t.failure)
  }

  /**
   * The iterations n, n + 1, ... up to count of a loop whose body is step,
   * starting from state p; the first exception ends the run in the state where
   * it was raised.
   */
  function RunFrom(step: (Progress, nat) -> Outcome, p: Progress, n: nat, count: nat): (o: Outcome)
    decreases count - n
  {
    if n >= count then Outcome(p, None)
    else
      var o := step(p, n);
      if o.failure.Some? then o else RunFrom(step, o.p, n + 1, count)
  }

  /** The callback's trace loop from trace n on, over all configured traces. */
  function Run(cfg: GraphConfig, t2id: seq<RoleIds>, a2id: seq<RoleIds>, p: Progress, n: nat): (o: Outcome)
  {
    RunFrom((p: Progress, n: nat) => Step(cfg, t2id, a2id, p, n), p, n, |cfg.traces|)
  }

  /** The two stores agree on everything but the one-shot flags. */
  predicate SameButFlags(a: TraceData, b: TraceData)
  {
    a.(ynewmin := false, ynewmax := false) == b.(ynewmin := false, ynewmax := false)
  }

  /**
   * From state a to state b only flags were cleared and checkpoints advanced:
   * as many stores and checkpoints, every store with the same samples and
   * extrema, no checkpoint smaller.
   */
  predicate Frame(a: Progress, b: Progress)
  {
    |b.data| == |a.data| && |b.chkp| == |a.chkp| &&
    (forall i :: 0 <= i < |a.data| ==> SameButFlags(b.data[i], a.data[i])) &&
    (forall i :: 0 <= i < |a.chkp| ==> a.chkp[i] <= b.chkp[i])
  }

  /**
   * A loop whose body keeps `Frame` and fails past the last store keeps
   * `Frame`, and a run of iterations n to count without an exception needs count stores.
   */
  lemma {:induction false} RunFromFrame(step: (Progress, nat) -> Outcome, p: Progress, n: nat, count: nat)
    requires forall p, n :: Frame(p, step(p, n).p)
    requires forall p: Progress, n: nat :: n >= |p.data| ==> step(p, n).failure.Some?
    ensures Frame(p, RunFrom(step, p, n, count).p)
    ensures RunFrom(step, p, n, count).failure.None? && n < count ==> count <= |p.data|
    decreases count - n
  {
    if n < count {
      var o := step(p, n);
      assert Frame(p, o.p);
      if o.failure.None? {
        RunFromFrame(step, o.p, n + 1, count);
      }
    }
  }

  /** One iteration of the callback's loop keeps `Frame`. */
  lemma StepFrame(cfg: GraphConfig, t2id: seq<RoleIds>, a2id: seq<RoleIds>, p: Progress, n: nat)
    ensures Frame(p, Step(cfg, t2id, a2id, p, n).p)
  {
    if n < |cfg.traces| && n < |p.data| {
      TraceStepFrame(cfg, t2id, a2id, n, p.data[n], p.chkp, p.ops, p.anyChange);
    }
  }

  /**
   * The callback's loop only ever clears flags and advances checkpoints, and
   * when it gets through all traces there was a store for each.
   */
  lemma RunFrame(cfg: GraphConfig, t2id: seq<RoleIds>, a2id: seq<RoleIds>, p: Progress)
    ensures Frame(p, Run(cfg, t2id, a2id, p, 0).p)
    ensures Run(cfg, t2id, a2id, p, 0).failure.None? ==> |cfg.traces| <= |p.data|
  {
    var step := (p: Progress, n: nat) => Step(cfg, t2id, a2id, p, n);
    forall p, n ensures Frame(p, step(p, n).p) {
      StepFrame(cfg, t2id, a2id, p, n);
    }
    RunFromFrame(step, p, 0, |cfg.traces|);
  }

  /** The stores satisfy the extrema invariant `add_data` keeps. */
  ghost predicate AllSane(ds: seq<TraceData>)
  {
    forall i :: 0 <= i < |ds| ==> ExtremaSane(ds[i])
  }

  /**
   * `min([v for each trace] + [0])` over minima that are finite or +inf: at
   * most 0, at most every finite minimum, and 0 or one of them.
   */
  function FloorZero(vs: seq<Ext>): (m: real)
    requires forall k :: 0 <= k < |vs| ==> vs[k] != NegInf
    ensures m <= 0.0
    ensures forall k :: 0 <= k < |vs| && vs[k].Fin? ==> m <= vs[k].v
    ensures m == 0.0 || exists k :: 0 <= k < |vs| && vs[k] == Fin(m)
  {
    if |vs| == 0 then 0.0
    else
      var rest := FloorZero(vs[..|vs| - 1]);
      assert forall k :: 0 <= k < |vs| - 1 ==> vs[..|vs| - 1][k] == vs[k];
      var last := vs[|vs| - 1];
      if last.Fin? && last.v < rest then last.v else rest
  }

  /** `max([v for each trace] + [0])` over maxima that are finite or -inf. */
  function CeilZero(vs: seq<Ext>): (m: real)
    requires forall k :: 0 <= k < |vs| ==> vs[k] != PosInf
    ensures 0.0 <= m
    ensures forall k :: 0 <= k < |vs| && vs[k].Fin? ==> vs[k].v <= m
    ensures m == 0.0 || exists k :: 0 <= k < |vs| && vs[k] == Fin(m)
  {
    if |vs| == 0 then 0.0
    else
      var rest := CeilZero(vs[..|vs| - 1]);
      assert forall k :: 0 <= k < |vs| - 1 ==> vs[..|vs| - 1][k] == vs[k];
      var last := vs[|vs| - 1];
      if last.Fin? && last.v > rest then last.v else rest
  }

  /** Whether trace t counts on the axis: every trace for a single axis, else those whose `yaxis` names it. */
  predicate OnAxis(cfg: GraphConfig, t: nat, axis: Option<string>)
    requires t < |cfg.traces|
  {
    axis.None? || cfg.traces[t].yaxis == axis.value
  }

  /** The minima the range uses for an axis, a trace on another axis counting as 0. */
  function AxisMins(cfg: GraphConfig, ds: seq<TraceData>, axis: Option<string>): (vs: seq<Ext>)
    requires |cfg.traces| <= |ds| && AllSane(ds)
    ensures |vs| == |cfg.traces| && forall k :: 0 <= k < |vs| ==> vs[k] != NegInf
  {
    seq(|cfg.traces|, t requires 0 <= t < |cfg.traces| => if OnAxis(cfg, t, axis) then ds[t].ymin else Fin(0.0))
  }

  function AxisMaxs(cfg: GraphConfig, ds: seq<TraceData>, axis: Option<string>): (vs: seq<Ext>)
    requires |cfg.traces| <= |ds| && AllSane(ds)
    ensures |vs| == |cfg.traces| && forall k :: 0 <= k < |vs| ==> vs[k] != PosInf
  {
    seq(|cfg.traces|, t requires 0 <= t < |cfg.traces| => if OnAxis(cfg, t, axis) then ds[t].ymax else Fin(0.0))
  }

  /** The zero-anchored data range `(MIN, MAX)` of an axis. */
  function DataRange(cfg: GraphConfig, ds: seq<TraceData>, axis: Option<string>): (r: (real, real))
    requires |cfg.traces| <= |ds| && AllSane(ds)
    ensures r.0 <= 0.0 <= r.1
  {
    (FloorZero(AxisMins(cfg, ds, axis)), CeilZero(AxisMaxs(cfg, ds, axis)))
  }

  /** Python's `x ** 0.5` on non-negative reals. */
  ghost predicate IsSqrt(sqrt: real -> real)
  {
    forall v :: 0.0 <= v ==> 0.0 <= sqrt(v) && sqrt(v) * sqrt(v) == v
  }

  /** A `determine_single_range` result seen from the refresh cycle: all zero, or straddling zero. */
  predicate ZeroOrStraddles(lo: real, hi: real)
  {
    (lo == 0.0 && hi == 0.0) || lo < 0.0 < hi
  }

  /**
   * `determine_mixed_range` as the refresh cycle meets it: ZeroDivisionError
   * when a range's lower bound is 0 (its ratio divides by it); otherwise both
   * ranges are mixed with the geometric mean of their ratios.
   */
  function MixRanges(lo1: real, hi1: real, lo2: real, hi2: real, sqrt: real -> real): (r: Result<(real, real, real, real)>)
    requires ZeroOrStraddles(lo1, hi1) && ZeroOrStraddles(lo2, hi2) && IsSqrt(sqrt)
    ensures r.Err? <==> lo1 == 0.0 || lo2 == 0.0
    ensures r.Err? ==> r.error == ZeroDivisionError
    ensures r.Ok? ==> var (a1, b1, a2, b2) := r.value;
              a1 < 0.0 && a2 < 0.0 && Ratio(a1, b1) == Ratio(a2, b2) &&
              a1 <= lo1 && hi1 <= b1 && a2 <= lo2 && hi2 <= b2
  {
    if lo1 == 0.0 || lo2 == 0.0 then Err(ZeroDivisionError)
    else
      var rbar := RatioMean(lo1, hi1, lo2, hi2, sqrt);
      MixedRangesMatch(lo1, hi1, lo2, hi2, rbar);
      var (a1, b1) := MixSide(lo1, hi1, rbar);
      var (a2, b2) := MixSide(lo2, hi2, rbar);
      Ok((a1, b1, a2, b2))
  }

  /** `(R1 * R2) ** 0.5` of two ranges that straddle zero: positive, and its square is R1 * R2. */
  function RatioMean(lo1: real, hi1: real, lo2: real, hi2: real, sqrt: real -> real): (rbar: real)
    requires lo1 < 0.0 < hi1 && lo2 < 0.0 < hi2 && IsSqrt(sqrt)
    ensures 0.0 < rbar && rbar * rbar == Ratio(lo1, hi1) * Ratio(lo2, hi2)
  {
    var r1, r2 := Ratio(lo1, hi1), Ratio(lo2, hi2);
    DivPositive(hi1, -lo1);
    DivPositive(hi2, -lo2);
    MulPositive(r1, r2);
    var s := sqrt(r1 * r2);
    assert s * s == r1 * r2;
    s
  }

  lemma MulPositive(a: real, b: real)
    requires 0.0 < a && 0.0 < b
    ensures 0.0 < a * b
  {
  }

  /** The four axis-limit edits of the two-axis case: both ranges mixed, or the ZeroDivisionError of the mixing. */
  function DualLimits(lo1: real, hi1: real, lo2: real, hi2: real, sqrt: real -> real): (r: Result<Patch>)
    requires ZeroOrStraddles(lo1, hi1) && ZeroOrStraddles(lo2, hi2) && IsSqrt(sqrt)
    ensures r.Err? <==> lo1 == 0.0 || lo2 == 0.0
    ensures r.Ok? ==> (|r.value| == 4 && r.value[0].AxisLimit? && r.value[1].AxisLimit? &&
              r.value[2].AxisLimit? && r.value[3].AxisLimit? &&
              r.value[0] == AxisLimit(1, MinAllowed, r.value[0].limit) &&
              r.value[1] == AxisLimit(1, MaxAllowed, r.value[1].limit) &&
              r.value[2] == AxisLimit(2, MinAllowed, r.value[2].limit) &&
              r.value[3] == AxisLimit(2, MaxAllowed, r.value[3].limit) &&
              r.value[0].limit < 0.0 && r.value[2].limit < 0.0 &&
              r.value[0].limit <= lo1 && hi1 <= r.value[1].limit &&
              r.value[2].limit <= lo2 && hi2 <= r.value[3].limit &&
              Ratio(r.value[0].limit, r.value[1].limit) == Ratio(r.value[2].limit, r.value[3].limit))
  {
    var (a1, b1, a2, b2) :- MixRanges(lo1, hi1, lo2, hi2, sqrt);
    Ok([AxisLimit(1, MinAllowed, a1), AxisLimit(1, MaxAllowed, b1),
        AxisLimit(2, MinAllowed, a2), AxisLimit(2, MaxAllowed, b2)])
  }

  /**
   * The axis-limit edits the finished loop adds (the corrected range call):
   * none unless a flag was set; for one y axis the padded range of all traces;
   * for two, the two axes' padded ranges mixed by `MixRanges`.
   */
  function RangeOps(cfg: GraphConfig, ds: seq<TraceData>, anyChange: bool, sqrt: real -> real): (r: Result<Patch>)
    requires |cfg.traces| <= |ds| && AllSane(ds) && IsSqrt(sqrt)
    ensures !anyChange ==> r == Ok([])
    ensures r.Err? ==> HasSubplots(cfg) && r.error == ZeroDivisionError
  {
    if !anyChange then Ok([])
    else if !HasSubplots(cfg) then
      var (mn, mx) := DataRange(cfg, ds, None);
      SingleRangeContains(mx, mn, Factor);
      var (lo, hi) := SingleRange(mx, mn, Factor).value;
      Ok([AxisLimit(1, MinAllowed, lo), AxisLimit(1, MaxAllowed, hi)])
    else
      var (mn1, mx1) := DataRange(cfg, ds, Some("primary"));
      var (mn2, mx2) := DataRange(cfg, ds, Some("secondary"));
      SingleRangeStraddles(mx1, mn1, Factor);
      SingleRangeStraddles(mx2, mn2, Factor);
      var (lo1, hi1) := SingleRange(mx1, mn1, Factor).value;
      var (lo2, hi2) := SingleRange(mx2, mn2, Factor).value;
      DualLimits(lo1, hi1, lo2, hi2, sqrt)
  }

  /**
   * The range section as written: `determine_single_range(MIN, MAX, ...)` puts
   * the data minimum in the MAX parameter, so it raises ValueError unless both
   * are 0; with two axes the surviving all-zero ranges then divide by zero.
   */
  function RangeOpsAsWritten(cfg: GraphConfig, ds: seq<TraceData>, anyChange: bool, sqrt: real -> real): (r: Result<Patch>)
    requires |cfg.traces| <= |ds| && AllSane(ds) && IsSqrt(sqrt)
    ensures !anyChange ==> r == Ok([])
    ensures anyChange && HasSubplots(cfg) ==> r.Err?
    ensures anyChange && !HasSubplots(cfg) ==> (r.Ok? <==> DataRange(cfg, ds, None) == (0.0, 0.0))
    ensures r.Err? ==> r.error == ValueError || r.error == ZeroDivisionError
  {
    if !anyChange then Ok([])
    else if !HasSubplots(cfg) then
      var (mn, mx) := DataRange(cfg, ds, None);
      var (lo, hi) :- SingleRange(mn, mx, Factor);
      Ok([AxisLimit(1, MinAllowed, lo), AxisLimit(1, MaxAllowed, hi)])
    else
      var (mn1, mx1) := DataRange(cfg, ds, Some("primary"));
      var (mn2, mx2) := DataRange(cfg, ds, Some("secondary"));
      var (lo1, hi1) :- SingleRange(mn1, mx1, Factor);
      var (lo2, hi2) :- SingleRange(mn2, mx2, Factor);
      SingleRangeStraddles(mx1, mn1, Factor);
      SingleRangeStraddles(mx2, mn2, Factor);
      DualLimits(lo1, hi1, lo2, hi2, sqrt)
  }

  /** What the processing-speed readout shows: the placeholder, or a rate before its formatting. */
  datatype SpeedReadout = Placeholder | Rate(samplesPerSec: real)

  /**
   * `callback_update_proc_speed(store)`: the placeholder while the deque is empty,
   * else the mean of the recorded rates, which lies between the extreme rates.
   */
  function UpdateProcSpeed(speed: seq<real>): (r: SpeedReadout)
    ensures r.Placeholder? <==> |speed| == 0
    ensures r.Rate? ==> Min(speed) <= r.samplesPerSec <= Max(speed)
  {
    if |speed| == 0 then Placeholder else Rate(Mean(speed))
  }

  /** The state a cycle starts from. */
  function Start(data: seq<TraceData>, chkp: seq<int>): Progress
  {
    Progress([], false, data, chkp)
  }

  /**
   * The whole cycle on values: the trace loop, then the range section with the
   * range call in its corrected order. The state in the outcome is what the
   * stores and the checkpoints end as; its edits are the patch the cycle
   * builds. The stores keep their samples and extrema, and no checkpoint goes
   * back; a cycle that gets through had a store for every configured trace.
   */
  function Cycle(cfg: GraphConfig, t2id: seq<RoleIds>, a2id: seq<RoleIds>, data: seq<TraceData>, chkp: seq<int>,
                 sqrt: real -> real): (o: Outcome)
    requires AllSane(data) && IsSqrt(sqrt)
    ensures Frame(Start(data, chkp), o.p) && (o.failure.None? ==> |cfg.traces| <= |data|)
  {
    RunFrame(cfg, t2id, a2id, Start(data, chkp));
    var o := Run(cfg, t2id, a2id, Start(data, chkp), 0);
    if o.failure.Some? then o
    else
      var ro := RangeOps(cfg, o.p.data, o.p.anyChange, sqrt);
      if ro.Err? then Outcome(o.p, Some(ro.error))
      else Outcome(o.p.(ops := o.p.ops + ro.value), None)
  }

  /** The whole cycle as written: the same trace loop, then the range section with `(MIN, MAX)` passed as `(MAX, MIN)`. */
  function CycleAsWritten(cfg: GraphConfig, t2id: seq<RoleIds>, a2id: seq<RoleIds>, data: seq<TraceData>, chkp: seq<int>,
                          sqrt: real -> real): (o: Outcome)
    requires AllSane(data) && IsSqrt(sqrt)
    ensures Frame(Start(data, chkp), o.p) && (o.failure.None? ==> |cfg.traces| <= |data|)
  {
    RunFrame(cfg, t2id, a2id, Start(data, chkp));
    var o := Run(cfg, t2id, a2id, Start(data, chkp), 0);
    if o.failure.Some? then o
    else
      var ro := RangeOpsAsWritten(cfg, o.p.data, o.p.anyChange, sqrt);
      if ro.Err? then Outcome(o.p, Some(ro.error))
      else Outcome(o.p.(ops := o.p.ops + ro.value), None)
  }

  /** The patch the callback returns in place of the one it built. */
  const DebugPatch: Patch := [Extend(Some(0), X, [0.5]), Extend(Some(0), Y, [0.5])]

  ghost predicate Distinct(data: seq<TraceStore>)
  {
    forall i, j :: 0 <= i < j < |data| ==> data[i] != data[j]
  }

  function Values(data: seq<TraceStore>): (vs: seq<TraceData>)
    reads set i | 0 <= i < |data| :: data[i]
    ensures |vs| == |data| && forall i :: 0 <= i < |data| ==> vs[i] == data[i].Data()
  {
    seq(|data|, i reads set i | 0 <= i < |data| :: data[i] requires 0 <= i < |data| => data[i].Data())
  }

  /**
   * `determine_mixed_range` on two fresh two-element lists, with the ratio
   * check that raises ZeroDivisionError in front of it.
   */
  method MixStep(lo1: real, hi1: real, lo2: real, hi2: real, sqrt: real -> real) returns (r: Result<(real, real, real, real)>)
    requires ZeroOrStraddles(lo1, hi1) && ZeroOrStraddles(lo2, hi2) && IsSqrt(sqrt)
    ensures r == MixRanges(lo1, hi1, lo2, hi2, sqrt)
  {
    if lo1 == 0.0 || lo2 == 0.0 {
      return Err(ZeroDivisionError);
    }
    var rbar := RatioMean(lo1, hi1, lo2, hi2, sqrt);
    var rng1 := new real[2] [lo1, hi1];
    var rng2 := new real[2] [lo2, hi2];
    var out1, out2 := MixedRange(rng1, rng2, rbar);
    r := Ok((out1[0], out1[1], out2[0], out2[1]));
  }

  /** The range section of the callback, with the range call in its corrected argument order. */
  method EmitRanges(cfg: GraphConfig, ds: seq<TraceData>, anyChange: bool, sqrt: real -> real) returns (r: Result<Patch>)
    requires |cfg.traces| <= |ds| && AllSane(ds) && IsSqrt(sqrt)
    ensures r == RangeOps(cfg, ds, anyChange, sqrt)
  {
    r := Ok([]);
    if anyChange && !HasSubplots(cfg) {
      var (mn, mx) := DataRange(cfg, ds, None);
      SingleRangeContains(mx, mn, Factor);
      var (lo, hi) := SingleRange(mx, mn, Factor).value;
      r := Ok([AxisLimit(1, MinAllowed, lo), AxisLimit(1, MaxAllowed, hi)]);
    }
    if anyChange && HasSubplots(cfg) {
      var (mn1, mx1) := DataRange(cfg, ds, Some("primary"));
      var (mn2, mx2) := DataRange(cfg, ds, Some("secondary"));
      SingleRangeStraddles(mx1, mn1, Factor);
      SingleRangeStraddles(mx2, mn2, Factor);
      var (lo1, hi1) := SingleRange(mx1, mn1, Factor).value;
      var (lo2, hi2) := SingleRange(mx2, mn2, Factor).value;
      var m := MixStep(lo1, hi1, lo2, hi2, sqrt);
      if m.Err? {
        return Err(m.error);
      }
      var (a1, b1, a2, b2) := m.value;
      r := Ok([AxisLimit(1, MinAllowed, a1), AxisLimit(1, MaxAllowed, b1),
               AxisLimit(2, MinAllowed, a2), AxisLimit(2, MaxAllowed, b2)]);
    }
  }

  /**
   * One pass of the callback's trace loop on trace n's store and the checkpoint
   * list, carrying the patch and `anyMinMaxChange`: the store, the list and the
   * carried values end as `TraceStep` says.
   */
  method ProcessTrace(cfg: GraphConfig, t2id: seq<RoleIds>, a2id: seq<RoleIds>, n: nat, d: TraceStore,
                      chkp: array<int>, ptch: Patch, anyChange: bool, ghost p: Progress)
    returns (ops: Patch, any: bool, failure: Option<PyError>)
    requires n < |cfg.traces| && n < |p.data|
    requires p == Progress(ptch, anyChange, p.data, chkp[..]) && p.data[n] == d.Data()
    modifies d, chkp
    ensures var t := TraceStep(cfg, t2id, a2id, n, old(d.Data()), old(chkp[..]), ptch, anyChange);
            d.Data() == t.d && chkp[..] == t.chkp && ops == t.ops && any == t.anyChange && failure == t.failure
    ensures Step(cfg, t2id, a2id, p, n) == Outcome(Progress(ops, any, p.data[n := d.Data()], chkp[..]), failure)
  {
    ops, any, failure := ptch, anyChange, None;
    if |d.x| == 0 || |d.y| == 0 {
      return;
    }
    var u := DataUpdate(cfg, n, d.Data(), t2id, chkp[..]);
    if u.Err? {
      failure := Some(u.error);
      return;
    }
    ops := ops + u.value.0;
    if u.value.1.Some? {
      chkp[n] := u.value.1.value;
    }
    var hasNewMin, hasNewMax := false, false;
    var ymin, ymax := d.ymin, d.ymax;
    if d.ynewmin {
      hasNewMin := true;
      any := true;
      d.ynewmin := false;
    }
    if d.ynewmax {
      hasNewMax := true;
      any := true;
      d.ynewmax := false;
    }
    var l := LineUpdate(cfg, n, hasNewMin, hasNewMax, ymin, ymax, t2id, a2id);
    if l.Err? {
      failure := Some(l.error);
      return;
    }
    ops := ops + l.value;
  }

  /** A run that reaches a trace without a store raises IndexError there. */
  lemma RunPastStores(cfg: GraphConfig, t2id: seq<RoleIds>, a2id: seq<RoleIds>, p: Progress, n: nat)
    requires |p.data| <= n < |cfg.traces|
    ensures Run(cfg, t2id, a2id, p, n) == Outcome(p, Some(IndexError))
  {
  }

  /** A run from past the last trace changes nothing. */
  lemma RunDone(cfg: GraphConfig, t2id: seq<RoleIds>, a2id: seq<RoleIds>, p: Progress)
    ensures Run(cfg, t2id, a2id, p, |cfg.traces|) == Outcome(p, None)
  {
  }

  /**
   * Iteration n of the callback's trace loop, on trace n's store: the loop's
   * run from n is the exception it raises, or the run from n + 1 on the new state.
   */
  method TraceIteration(cfg: GraphConfig, data: seq<TraceStore>, t2id: seq<RoleIds>, a2id: seq<RoleIds>,
                        chkp: array<int>, n: nat, ptch: Patch, anyChange: bool)
    returns (ops: Patch, any: bool, failure: Option<PyError>)
    requires Distinct(data) && n < |cfg.traces| && n < |data|
    modifies data[n], chkp
    ensures var now := Progress(ops, any, Values(data), chkp[..]);
            Run(cfg, t2id, a2id, Progress(ptch, anyChange, old(Values(data)), old(chkp[..])), n) ==
            if failure.Some? then Outcome(now, failure) else Run(cfg, t2id, a2id, now, n + 1)
  {
    ghost var before := Progress(ptch, anyChange, Values(data), chkp[..]);
    var d := data[n];
    ops, any, failure := ProcessTrace(cfg, t2id, a2id, n, d, chkp, ptch, anyChange, before);
    assert forall i :: 0 <= i < |data| && i != n ==> data[i] != d;
    assert Values(data) == before.data[n := d.Data()];
  }

  /**
   * The trace loop of the callback over the stores of the graph's traces and
   * the checkpoint list: the stores, the list, the patch built and
   * `anyMinMaxChange` end as `Run` says over all configured traces, and so
   * does the exception that stops the loop, if one does.
   */
  method TraceLoop(cfg: GraphConfig, data: seq<TraceStore>, t2id: seq<RoleIds>, a2id: seq<RoleIds>, chkp: array<int>)
    returns (ptch: Patch, anyMinMaxChange: bool, failure: Option<PyError>)
    requires Distinct(data)
    modifies set i | 0 <= i < |data| :: data[i]
    modifies chkp
    ensures Run(cfg, t2id, a2id, Start(old(Values(data)), old(chkp[..])), 0) ==
            Outcome(Progress(ptch, anyMinMaxChange, Values(data), chkp[..]), failure)
  {
    ptch, anyMinMaxChange, failure := [], false, None;
    var n := 0;
    while n < |cfg.traces|
      invariant n <= |cfg.traces| && failure.None?
      invariant Run(cfg, t2id, a2id, Start(old(Values(data)), old(chkp[..])), 0) ==
                Run(cfg, t2id, a2id, Progress(ptch, anyMinMaxChange, Values(data), chkp[..]), n)
    {
      if n >= |data| {
        RunPastStores(cfg, t2id, a2id, Progress(ptch, anyMinMaxChange, Values(data), chkp[..]), n);
        return ptch, anyMinMaxChange, Some(IndexError);
      }
      ptch, anyMinMaxChange, failure := TraceIteration(cfg, data, t2id, a2id, chkp, n, ptch, anyMinMaxChange);
      if failure.Some? {
        return;
      }
      n := n + 1;
    }
    RunDone(cfg, t2id, a2id, Progress(ptch, anyMinMaxChange, Values(data), chkp[..]));
  }

  /**
   * `callback_generate_flexgraph_patch(G_CFG, g_store, g_chkp)` over the stores
   * of the graph's traces, the two id registries and the checkpoint list, with
   * `sqrt` standing for `** 0.5`. The stores and checkpoints end as `Cycle`
   * says, also when an exception ends the cycle early; on success the debug
   * patch and the same checkpoint list are returned.
   */
  method GenerateFlexgraphPatch(cfg: GraphConfig, data: seq<TraceStore>, t2id: seq<RoleIds>, a2id: seq<RoleIds>,
                                chkp: array<int>, sqrt: real -> real) returns (r: Result<(Patch, array<int>)>)
    requires Distinct(data) && AllSane(Values(data)) && IsSqrt(sqrt)
    modifies set i | 0 <= i < |data| :: data[i]
    modifies chkp
    ensures var o := Cycle(cfg, t2id, a2id, old(Values(data)), old(chkp[..]), sqrt);
            Values(data) == o.p.data && chkp[..] == o.p.chkp &&
            (o.failure.Some? ==> r == Err(o.failure.value)) &&
            (o.failure.None? ==> r == Ok((DebugPatch, chkp)))
  {
    ghost var p0 := Start(Values(data), chkp[..]);
    var ptch, anyMinMaxChange, failure := TraceLoop(cfg, data, t2id, a2id, chkp);
    if failure.Some? {
      return Err(failure.value);
    }
    RunFrame(cfg, t2id, a2id, p0);
    var ro := EmitRanges(cfg, Values(data), anyMinMaxChange, sqrt);
    if ro.Err? {
      return Err(ro.error);
    }
    ptch := ptch + ro.value;
    ptch := [];
    ptch := ptch + [Extend(Some(0), X, [0.5])];
    ptch := ptch + [Extend(Some(0), Y, [0.5])];
    assert ptch == DebugPatch;
    r := Ok((ptch, chkp));
  }
}
