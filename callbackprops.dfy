/**
 * What the refresh cycle of a flexible graph guarantees: the edits of the data
 * section are exactly the samples after the checkpoint, so the figure follows
 * the store; the flags are consumed once; the extremum lines move to the
 * extrema; the range section pins zero and, with two axes, lines up the zero
 * lines; and the range call as written fails for any non-trivial data.
 */
module CallbackProperties {
  import opened Py
  import opened Interp
  import opened AxisRanges
  import opened SetupConfig
  import opened Name2Id
  import opened DataStore
  import opened Patches
  import opened Callbacks
  import Plotter
  import Flexgraph
  import FlexgraphProperties

  /** A trace without x or without y is skipped: no edits, and its store, the checkpoints and `anyMinMaxChange` stay. */
  lemma SkipsEmptyTrace(cfg: GraphConfig, t2id: seq<RoleIds>, a2id: seq<RoleIds>, n: nat, d: TraceData,
                        chkp: seq<int>, ops: Patch, anyChange: bool)
    requires n < |cfg.traces| && (|d.x| == 0 || |d.y| == 0)
    ensures TraceStep(cfg, t2id, a2id, n, d, chkp, ops, anyChange) == TraceOutcome(d, chkp, ops, anyChange, None)
  {
  }

  /** The edits of a raw update from checkpoint prev to the newest index k, by trace role. */
  predicate RawShape(tc: TraceConfig, ids: RoleIds, d: TraceData, prev: int, k: int, p: Patch)
    requires -1 <= prev < k < |d.x| && k < |d.y|
  {
    var xs := d.x[prev + 1..k + 1];
    |p| == 2 + (if tc.point then 2 else 0) + (if tc.errors then 4 else 0) &&
    p[0] == Extend(ids.main, X, xs) && p[1] == Extend(ids.main, Y, d.y[prev + 1..k + 1]) &&
    (tc.point ==> p[2] == Assign(ids.point, X, [d.x[k], d.x[k]]) && p[3] == Assign(ids.point, Y, [d.y[k], d.y[k]])) &&
    (tc.errors ==> (d.ylo.Some? && d.yhi.Some? &&
       p[|p| - 4] == Extend(ids.lo, X, xs) && p[|p| - 3] == Extend(ids.lo, Y, PySlice(d.ylo.value, prev + 1, k + 1)) &&
       p[|p| - 2] == Extend(ids.hi, X, xs) && p[|p| - 1] == Extend(ids.hi, Y, PySlice(d.yhi.value, prev + 1, k + 1))))
  }

  /**
   * Without downsampling: nothing new since the checkpoint gives no edits and no
   * new checkpoint; otherwise IndexError for an unregistered trace position,
   * TypeError for a missing band list, and else the main trace gets exactly the
   * raw points after the checkpoint, the marker shows the newest point twice,
   * the bands get the same x slice, and the checkpoint becomes the newest index.
   */
  lemma RawEdits(tc: TraceConfig, n: nat, d: TraceData, t2id: seq<RoleIds>, prev: int)
    requires |d.x| > 0 && |d.y| > 0 && -1 <= prev
    ensures var r := RawUpdate(tc, n, d, t2id, prev);
            var k := Newest(d);
            if k <= prev then r == Ok(([], None))
            else if n >= |t2id| then r == Err(IndexError)
            else if tc.errors && (d.ylo.None? || d.yhi.None?) then r == Err(TypeError)
            else r.Ok? && r.value.1 == Some(k) && RawShape(tc, t2id[n], d, prev, k, r.value.0)
  {
    var k := Newest(d);
    if k > prev && n < |t2id| {
      assert Repeat(d.x[k], 2) == [d.x[k], d.x[k]];
      assert Repeat(d.y[k], 2) == [d.y[k], d.y[k]];
    }
  }

  /** The main trace's id is registered and differs from the ids of its marker and its bands. */
  predicate MainApart(ids: RoleIds)
  {
    ids.main.Some? && ids.point != ids.main && ids.lo != ids.main && ids.hi != ids.main
  }

  /** A patch that extends trace id's x by a and y by b first and leaves both alone afterwards extends them by a and b. */
  lemma ExtendsThenOthers(p: Patch, id: nat, a: seq<real>, b: seq<real>, cx: seq<real>, cy: seq<real>)
    requires |p| >= 2 && p[0] == Extend(Some(id), X, a) && p[1] == Extend(Some(id), Y, b)
    requires forall k :: 2 <= k < |p| ==> !Touches(p[k], id, X) && !Touches(p[k], id, Y)
    ensures Apply(p, id, X, cx) == cx + a && Apply(p, id, Y, cy) == cy + b
  {
    assert p == p[..2] + p[2..];
    assert p[..2] == [Extend(Some(id), X, a), Extend(Some(id), Y, b)];
    assert forall k :: 0 <= k < |p[2..]| ==> p[2..][k] == p[k + 2];
    ApplyConcat(p[..2], p[2..], id, X, cx);
    ApplyConcat(p[..2], p[2..], id, Y, cy);
    ExtendBoth(a, b, id, cx);
    ExtendBoth(a, b, id, cy);
  }

  /** Raw edits of `RawShape` extend the main trace by exactly the samples from prev + 1 to k. */
  lemma RawShapeSync(tc: TraceConfig, ids: RoleIds, d: TraceData, prev: int, k: int, p: Patch)
    requires -1 <= prev < k < |d.x| && k < |d.y| && MainApart(ids) && RawShape(tc, ids, d, prev, k, p)
    ensures Apply(p, ids.main.value, X, d.x[..prev + 1]) == d.x[..k + 1]
    ensures Apply(p, ids.main.value, Y, d.y[..prev + 1]) == d.y[..k + 1]
  {
    var id := ids.main.value;
    assert forall j :: 2 <= j < |p| ==> !Touches(p[j], id, X) && !Touches(p[j], id, Y);
    ExtendsThenOthers(p, id, d.x[prev + 1..k + 1], d.y[prev + 1..k + 1], d.x[..prev + 1], d.y[..prev + 1]);
    assert d.x[..prev + 1] + d.x[prev + 1..k + 1] == d.x[..k + 1];
    assert d.y[..prev + 1] + d.y[prev + 1..k + 1] == d.y[..k + 1];
  }

  /**
   * Without downsampling the figure follows the store: if the main trace showed
   * the samples up to the checkpoint, after the edits it shows those up to the
   * new checkpoint, in x and in y.
   */
  lemma RawKeepsFigureInSync(tc: TraceConfig, n: nat, d: TraceData, t2id: seq<RoleIds>, prev: int)
    requires |d.x| > 0 && |d.y| > 0 && -1 <= prev <= Newest(d) && n < |t2id| && MainApart(t2id[n])
    requires RawUpdate(tc, n, d, t2id, prev).Ok?
    ensures var (p, c) := RawUpdate(tc, n, d, t2id, prev).value;
            var chk := if c.Some? then c.value else prev;
            var id := t2id[n].main.value;
            chk <= Newest(d) &&
            Apply(p, id, X, d.x[..prev + 1]) == d.x[..chk + 1] &&
            Apply(p, id, Y, d.y[..prev + 1]) == d.y[..chk + 1]
  {
    RawEdits(tc, n, d, t2id, prev);
    var k := Newest(d);
    if k > prev {
      RawShapeSync(tc, t2id[n], d, prev, k, RawUpdate(tc, n, d, t2id, prev).value.0);
    }
  }

  /**
   * The edits of a downsampled update from checkpoint prev to grid index next:
   * the main trace gets the grid points after the checkpoint and, for each, y
   * interpolated over the raw points from the one covering the first new grid
   * point to the newest; the marker's x moves to the new grid point; the bands
   * get the same grid slice and as many values.
   */
  predicate DownShape(tc: TraceConfig, ids: RoleIds, d: TraceData, prev: int, next: int, p: Patch)
    requires d.xdown.Some? && |d.x| > 0 && |d.y| > 0 && -1 <= prev < next < |d.xdown.value|
  {
    var grid := d.xdown.value;
    var gs := grid[prev + 1..next + 1];
    var o := IdxNextSmaller(d.x, grid[prev + 1]);
    var xs := PySlice(d.x, o, Newest(d) + 1);
    var ys := PySlice(d.y, o, Newest(d) + 1);
    |p| == 2 + (if tc.point then 1 else 0) + (if tc.errors then 4 else 0) &&
    MainShape(ids, gs, xs, ys, p[..2]) &&
    (tc.point ==> p[2] == Assign(ids.point, X, [grid[next], grid[next]])) &&
    (tc.errors ==> BandShape(ids, gs, p[|p| - 4..]))
  }

  /** The main trace's two edits: x extended by the grid slice gs, y by the interpolation over xs and ys at each of its points. */
  predicate MainShape(ids: RoleIds, gs: seq<real>, xs: seq<real>, ys: seq<real>, m: Patch)
  {
    |xs| == |ys| > 0 && |m| == 2 &&
    m[0] == Extend(ids.main, X, gs) && m[1].Extend? && m[1].trace == ids.main && m[1].field == Y &&
    |m[1].values| == |gs| && (forall j :: 0 <= j < |gs| ==> m[1].values[j] == InterpAt(xs, ys, gs[j]))
  }

  /**
   * With downsampling, a successful update that advances the checkpoint moves it
   * to the last grid point the newest raw x covers and emits `DownShape`'s edits.
   */
  lemma DownEdits(tc: TraceConfig, n: nat, d: TraceData, t2id: seq<RoleIds>, prev: int)
    requires |d.x| > 0 && |d.y| > 0 && -1 <= prev
    requires DownUpdate(tc, n, d, t2id, prev).Ok? && DownUpdate(tc, n, d, t2id, prev).value.1.Some?
    ensures var (p, c) := DownUpdate(tc, n, d, t2id, prev).value;
            d.xdown.Some? && n < |t2id| && prev < c.value < |d.xdown.value| &&
            c.value == IdxNextSmaller(d.xdown.value, d.x[Newest(d)]) &&
            DownShape(tc, t2id[n], d, prev, c.value, p)
  {
    var grid := d.xdown.value;
    var next := IdxNextSmaller(grid, d.x[Newest(d)]);
    assert 0 <= prev + 1 < |grid|;
    GridEditsShape(tc, n, d, t2id, prev, next);
  }

  /** `GridEdits` from the first raw point covering the first new grid point gives `DownShape`'s edits. */
  lemma GridEditsShape(tc: TraceConfig, n: nat, d: TraceData, t2id: seq<RoleIds>, prev: int, next: int)
    requires |d.x| > 0 && |d.y| > 0 && d.xdown.Some? && -1 <= prev < next < |d.xdown.value|
    requires GridEdits(tc, n, d, t2id, prev, next, IdxNextSmaller(d.x, d.xdown.value[prev + 1])).Ok?
    ensures n < |t2id| &&
            DownShape(tc, t2id[n], d, prev, next, GridEdits(tc, n, d, t2id, prev, next, IdxNextSmaller(d.x, d.xdown.value[prev + 1])).value)
  {
    var grid := d.xdown.value;
    var o := IdxNextSmaller(d.x, grid[prev + 1]);
    var gs := grid[prev + 1..next + 1];
    var xs := PySlice(d.x, o, Newest(d) + 1);
    var ys := PySlice(d.y, o, Newest(d) + 1);
    var yd := InterpAll(gs, xs, ys);
    assert yd.Ok?;
    var ids := t2id[n];
    var main := [Extend(ids.main, X, gs), Extend(ids.main, Y, yd.value)];
    var point := if tc.point then [Assign(ids.point, X, [grid[next], grid[next]])] else [];
    assert Repeat(grid[next], 2) == [grid[next], grid[next]];
    var p := GridEdits(tc, n, d, t2id, prev, next, o).value;
    if tc.errors {
      var bands := BandEdits(ids, d, gs, xs, o).value;
      assert p == main + point + bands;
      assert p[|p| - 4..] == bands;
    } else {
      assert p == main + point;
    }
    assert p[..2] == main;
  }

  /** A downsampled update that did nothing leaves no edits and the checkpoint where it was. */
  lemma DownNothingNew(tc: TraceConfig, n: nat, d: TraceData, t2id: seq<RoleIds>, prev: int)
    requires |d.x| > 0 && |d.y| > 0 && d.xdown.Some?
    requires IdxNextSmaller(d.xdown.value, d.x[Newest(d)]) <= prev
    ensures DownUpdate(tc, n, d, t2id, prev) == Ok(([], None))
  {
  }

  /** `DownShape`'s edits open with the main trace's x and y extensions, and no later edit touches either. */
  lemma DownShapeParts(tc: TraceConfig, ids: RoleIds, d: TraceData, prev: int, next: int, p: Patch)
    requires d.xdown.Some? && |d.x| > 0 && |d.y| > 0 && -1 <= prev < next < |d.xdown.value|
    requires MainApart(ids) && DownShape(tc, ids, d, prev, next, p)
    ensures |p| >= 2 && p[0] == Extend(ids.main, X, d.xdown.value[prev + 1..next + 1])
    ensures p[1] == Extend(ids.main, Y, p[1].values) && |p[1].values| == next - prev
    ensures forall j :: 2 <= j < |p| ==> !Touches(p[j], ids.main.value, X) && !Touches(p[j], ids.main.value, Y)
  {
    var grid := d.xdown.value;
    var gs := grid[prev + 1..next + 1];
    var o := IdxNextSmaller(d.x, grid[prev + 1]);
    assert MainShape(ids, gs, PySlice(d.x, o, Newest(d) + 1), PySlice(d.y, o, Newest(d) + 1), p[..2]);
    assert p[0] == p[..2][0] && p[1] == p[..2][1];
    if tc.errors {
      var b := p[|p| - 4..];
      assert BandShape(ids, gs, b);
      forall j | |p| - 4 <= j < |p|
        ensures p[j] == b[j - (|p| - 4)]
      {
      }
    }
  }

  /** Edits of `DownShape` extend the main trace's x by exactly the grid points from prev + 1 to next, and its y by as many values. */
  lemma DownShapeSync(tc: TraceConfig, ids: RoleIds, d: TraceData, prev: int, next: int, p: Patch, cy: seq<real>)
    requires d.xdown.Some? && |d.x| > 0 && |d.y| > 0 && -1 <= prev < next < |d.xdown.value|
    requires MainApart(ids) && DownShape(tc, ids, d, prev, next, p)
    ensures Apply(p, ids.main.value, X, d.xdown.value[..prev + 1]) == d.xdown.value[..next + 1]
    ensures |Apply(p, ids.main.value, Y, cy)| == |cy| + (next - prev)
  {
    var grid := d.xdown.value;
    var id := ids.main.value;
    var gs := grid[prev + 1..next + 1];
    DownShapeParts(tc, ids, d, prev, next, p);
    ExtendsThenOthers(p, id, gs, p[1].values, grid[..prev + 1], cy);
    assert grid[..prev + 1] + gs == grid[..next + 1];
  }

  /**
   * With downsampling the figure follows the grid: if the main trace showed the
   * grid up to the checkpoint, after the edits it shows the grid up to the new
   * checkpoint, and its y grew by as many values.
   */
  lemma DownKeepsFigureInSync(tc: TraceConfig, n: nat, d: TraceData, t2id: seq<RoleIds>, prev: int, cy: seq<real>)
    requires |d.x| > 0 && |d.y| > 0 && -1 <= prev && d.xdown.Some? && prev < |d.xdown.value|
    requires n < |t2id| && MainApart(t2id[n])
    requires DownUpdate(tc, n, d, t2id, prev).Ok?
    ensures var (p, c) := DownUpdate(tc, n, d, t2id, prev).value;
            var grid := d.xdown.value;
            var chk := if c.Some? then c.value else prev;
            var id := t2id[n].main.value;
            prev <= chk < |grid| &&
            Apply(p, id, X, grid[..prev + 1]) == grid[..chk + 1] &&
            |Apply(p, id, Y, cy)| == |cy| + (chk - prev)
  {
    var (p, c) := DownUpdate(tc, n, d, t2id, prev).value;
    if c.Some? {
      DownEdits(tc, n, d, t2id, prev);
      DownShapeSync(tc, t2id[n], d, prev, c.value, p, cy);
    }
  }

  /**
   * The body of the loop consumes the flags: with data, an exception in the data
   * section leaves everything as it was; otherwise both flags end cleared, a set
   * flag marks `anyMinMaxChange`, the checkpoint takes the data section's new
   * value, and the data section's edits come first, right after the earlier ones.
   */
  lemma TraceStepConsumesFlags(cfg: GraphConfig, t2id: seq<RoleIds>, a2id: seq<RoleIds>, n: nat, d: TraceData,
                               chkp: seq<int>, ops: Patch, anyChange: bool)
    requires n < |cfg.traces| && |d.x| > 0 && |d.y| > 0
    ensures var t := TraceStep(cfg, t2id, a2id, n, d, chkp, ops, anyChange);
            var u := DataUpdate(cfg, n, d, t2id, chkp);
            (u.Err? ==> t == TraceOutcome(d, chkp, ops, anyChange, Some(u.error))) &&
            (u.Ok? ==> !t.d.ynewmin && !t.d.ynewmax && SameButFlags(t.d, d) &&
                       (t.anyChange <==> anyChange || d.ynewmin || d.ynewmax) &&
                       t.chkp == (if u.value.1.Some? then chkp[n := u.value.1.value] else chkp) &&
                       |ops| + |u.value.0| <= |t.ops| && t.ops[..|ops| + |u.value.0|] == ops + u.value.0)
  {
    var u := DataUpdate(cfg, n, d, t2id, chkp);
    if u.Ok? {
      var l := LineUpdate(cfg, n, d.ynewmin, d.ynewmax, d.ymin, d.ymax, t2id, a2id);
      if l.Ok? {
        assert (ops + u.value.0 + l.value)[..|ops| + |u.value.0|] == ops + u.value.0;
      }
    }
  }

  /** Python's `False == n` holds only for n = 0: as written, a `showmin` of False selects trace 0. */
  lemma FalseSelectsTraceZero(v: PyVal, n: int)
    requires IsFalse(v)
    ensures EqInt(v, n) <==> n == 0
  {
  }

  /**
   * The extremum-line section: IndexError when a line must move for a trace
   * position without ids; otherwise, for the selected trace with a new minimum,
   * the min line moves to ymin and its annotation shows "minimum" and ymin,
   * moves to ymin and becomes visible; likewise for the maximum, after it.
   */
  lemma LineUpdateMoves(cfg: GraphConfig, n: nat, hasMin: bool, hasMax: bool, ymin: Ext, ymax: Ext,
                        t2id: seq<RoleIds>, a2id: seq<RoleIds>)
    ensures var r := LineUpdate(cfg, n, hasMin, hasMax, ymin, ymax, t2id, a2id);
            var showMin := Flexgraph.Shows(cfg.showmin, n) && hasMin;
            var showMax := Flexgraph.Shows(cfg.showmax, n) && hasMax;
            (r.Ok? <==> (!showMin && !showMax) || (n < |t2id| && n < |a2id|)) &&
            (r.Err? ==> r.error == IndexError) &&
            (r.Ok? ==> (|r.value| == (if showMin then 4 else 0) + (if showMax then 4 else 0) &&
               (showMin ==> r.value[..4] == [AssignLevel(t2id[n].minline, ymin), AnnotText(a2id[n].minline, "minimum", ymin),
                                             AnnotY(a2id[n].minline, ymin), AnnotVisible(a2id[n].minline, true)]) &&
               (showMax ==> r.value[|r.value| - 4..] == [AssignLevel(t2id[n].maxline, ymax), AnnotText(a2id[n].maxline, "maximum", ymax),
                                                         AnnotY(a2id[n].maxline, ymax), AnnotVisible(a2id[n].maxline, true)])))
  {
    var r := LineUpdate(cfg, n, hasMin, hasMax, ymin, ymax, t2id, a2id);
    if r.Ok? && Flexgraph.Shows(cfg.showmin, n) && hasMin && Flexgraph.Shows(cfg.showmax, n) && hasMax {
      assert r.value[..4] == r.value[..8][..4];
    }
  }

  /**
   * As written, a `showmin`/`showmax` string never equals a trace number, so
   * the extremum lines of every trace stay where the figure builder put them;
   * the corrected section moves the min line of the trace the string names.
   */
  lemma AsWrittenLinesStay(cfg: GraphConfig, n: nat, hasMin: bool, hasMax: bool, ymin: Ext, ymax: Ext,
                           t2id: seq<RoleIds>, a2id: seq<RoleIds>)
    requires cfg.showmin.PyStr? && cfg.showmax.PyStr?
    ensures LineUpdateAsWritten(cfg, n, hasMin, hasMax, ymin, ymax, t2id, a2id) == Ok([])
    ensures Flexgraph.Shows(cfg.showmin, n) && hasMin && n < |t2id| && n < |a2id| ==>
              var r := LineUpdate(cfg, n, hasMin, hasMax, ymin, ymax, t2id, a2id);
              r.Ok? && |r.value| >= 4 && r.value[0] == AssignLevel(t2id[n].minline, ymin)
  {
    assert !EqInt(cfg.showmin, n) && !EqInt(cfg.showmax, n);
    var none: Patch := [];
    assert none + none == none;
    assert LineEdits(n, false, false, ymin, ymax, t2id, a2id) == Ok(none + none);
    assert LineUpdateAsWritten(cfg, n, hasMin, hasMax, ymin, ymax, t2id, a2id) == LineEdits(n, false, false, ymin, ymax, t2id, a2id);
    LineUpdateMoves(cfg, n, hasMin, hasMax, ymin, ymax, t2id, a2id);
  }

  /**
   * The corrected section moves exactly the lines the figure builder made:
   * for a configuration `make_flexgraph` accepts, trace k's min line moves
   * (given a new minimum) exactly when the builder registered a min line and
   * a min annotation for trace k, and likewise for the max line.
   */
  lemma SelectedLinesWereBuilt(cfg: GraphConfig, t2id: Flexgraph.Registry, a2id: Flexgraph.Registry, k: nat)
    requires Flexgraph.Fresh(t2id) && Flexgraph.Fresh(a2id)
    requires |cfg.traces| <= |t2id.ids| && |cfg.traces| <= |a2id.ids| && k < |cfg.traces|
    requires Flexgraph.LineOk(cfg, cfg.showmin) && Flexgraph.LineOk(cfg, cfg.showmax)
    ensures var b := Flexgraph.Flex(cfg, t2id, a2id).0;
            |b.t2id.ids| == |t2id.ids| && |b.a2id.ids| == |a2id.ids| &&
            (Flexgraph.Shows(cfg.showmin, k) <==> b.t2id.ids[k].minline.Some? && b.a2id.ids[k].minline.Some?) &&
            (Flexgraph.Shows(cfg.showmax, k) <==> b.t2id.ids[k].maxline.Some? && b.a2id.ids[k].maxline.Some?)
  {
    FlexgraphProperties.FlexRegistersExpected(cfg, t2id, a2id, k, MinLine);
    FlexgraphProperties.FlexRegistersExpected(cfg, t2id, a2id, k, MaxLine);
  }

  /** Without a set flag the range section adds nothing. */
  lemma RangesOnlyAfterChange(cfg: GraphConfig, ds: seq<TraceData>, sqrt: real -> real)
    requires |cfg.traces| <= |ds| && AllSane(ds) && IsSqrt(sqrt)
    ensures RangeOps(cfg, ds, false, sqrt) == Ok([])
  {
  }

  /**
   * One y axis: two limits on axis 1 that contain zero and every finite
   * extremum of every trace.
   */
  lemma SingleAxisLimits(cfg: GraphConfig, ds: seq<TraceData>, sqrt: real -> real)
    requires |cfg.traces| <= |ds| && AllSane(ds) && IsSqrt(sqrt) && !HasSubplots(cfg)
    ensures var r := RangeOps(cfg, ds, true, sqrt);
            r.Ok? && |r.value| == 2 && r.value[0].AxisLimit? && r.value[1].AxisLimit? &&
            r.value[0] == AxisLimit(1, MinAllowed, r.value[0].limit) &&
            r.value[1] == AxisLimit(1, MaxAllowed, r.value[1].limit) &&
            r.value[0].limit <= 0.0 <= r.value[1].limit &&
            (forall t :: 0 <= t < |cfg.traces| && ds[t].ymin.Fin? ==> r.value[0].limit <= ds[t].ymin.v) &&
            (forall t :: 0 <= t < |cfg.traces| && ds[t].ymax.Fin? ==> ds[t].ymax.v <= r.value[1].limit)
  {
    var (mn, mx) := DataRange(cfg, ds, None);
    SingleRangeContains(mx, mn, Factor);
    var mins, maxs := AxisMins(cfg, ds, None), AxisMaxs(cfg, ds, None);
    assert forall t :: 0 <= t < |cfg.traces| ==> mins[t] == ds[t].ymin && maxs[t] == ds[t].ymax;
  }

  /**
   * Two y axes: ZeroDivisionError exactly when one axis has only zero
   * extrema; otherwise two limits per axis that contain that axis's data range
   * and have equal ratios, so that the zero lines of both axes line up.
   */
  lemma DualAxisLimits(cfg: GraphConfig, ds: seq<TraceData>, sqrt: real -> real)
    requires |cfg.traces| <= |ds| && AllSane(ds) && IsSqrt(sqrt) && HasSubplots(cfg)
    ensures var (mn1, mx1) := DataRange(cfg, ds, Some("primary"));
            var (mn2, mx2) := DataRange(cfg, ds, Some("secondary"));
            var r := RangeOps(cfg, ds, true, sqrt);
            (r.Err? <==> (mn1 == 0.0 && mx1 == 0.0) || (mn2 == 0.0 && mx2 == 0.0)) &&
            (r.Err? ==> r.error == ZeroDivisionError) &&
            (r.Ok? ==> (|r.value| == 4 && r.value[0].AxisLimit? && r.value[1].AxisLimit? &&
               r.value[2].AxisLimit? && r.value[3].AxisLimit? &&
               r.value[0] == AxisLimit(1, MinAllowed, r.value[0].limit) &&
               r.value[1] == AxisLimit(1, MaxAllowed, r.value[1].limit) &&
               r.value[2] == AxisLimit(2, MinAllowed, r.value[2].limit) &&
               r.value[3] == AxisLimit(2, MaxAllowed, r.value[3].limit) &&
               r.value[0].limit < 0.0 && r.value[2].limit < 0.0 &&
               r.value[0].limit <= mn1 && mx1 <= r.value[1].limit &&
               r.value[2].limit <= mn2 && mx2 <= r.value[3].limit &&
               Ratio(r.value[0].limit, r.value[1].limit) == Ratio(r.value[2].limit, r.value[3].limit) &&
               (forall t :: 0 <= t < |cfg.traces| && cfg.traces[t].yaxis == "primary" && ds[t].ymin.Fin? ==>
                  r.value[0].limit <= ds[t].ymin.v) &&
               (forall t :: 0 <= t < |cfg.traces| && cfg.traces[t].yaxis == "primary" && ds[t].ymax.Fin? ==>
                  ds[t].ymax.v <= r.value[1].limit) &&
               (forall t :: 0 <= t < |cfg.traces| && cfg.traces[t].yaxis == "secondary" && ds[t].ymin.Fin? ==>
                  r.value[2].limit <= ds[t].ymin.v) &&
               (forall t :: 0 <= t < |cfg.traces| && cfg.traces[t].yaxis == "secondary" && ds[t].ymax.Fin? ==>
                  ds[t].ymax.v <= r.value[3].limit)))
  {
    var (mn1, mx1) := DataRange(cfg, ds, Some("primary"));
    var (mn2, mx2) := DataRange(cfg, ds, Some("secondary"));
    SingleRangeStraddles(mx1, mn1, Factor);
    SingleRangeStraddles(mx2, mn2, Factor);
    SingleRangeContains(mx1, mn1, Factor);
    SingleRangeContains(mx2, mn2, Factor);
    AxisHolds(cfg, ds, "primary");
    AxisHolds(cfg, ds, "secondary");
  }

  /** Every finite extremum of a trace on an axis lies inside that axis's data range. */
  lemma AxisHolds(cfg: GraphConfig, ds: seq<TraceData>, axis: string)
    requires |cfg.traces| <= |ds| && AllSane(ds)
    ensures var (mn, mx) := DataRange(cfg, ds, Some(axis));
            (forall t :: 0 <= t < |cfg.traces| && cfg.traces[t].yaxis == axis && ds[t].ymin.Fin? ==> mn <= ds[t].ymin.v) &&
            (forall t :: 0 <= t < |cfg.traces| && cfg.traces[t].yaxis == axis && ds[t].ymax.Fin? ==> ds[t].ymax.v <= mx)
  {
    var mins, maxs := AxisMins(cfg, ds, Some(axis)), AxisMaxs(cfg, ds, Some(axis));
    assert forall t :: 0 <= t < |cfg.traces| && cfg.traces[t].yaxis == axis ==> mins[t] == ds[t].ymin && maxs[t] == ds[t].ymax;
  }

  /** As written, one y axis gets limits only when the data range is all zero; otherwise ValueError. */
  lemma AsWrittenSingleAxis(cfg: GraphConfig, ds: seq<TraceData>, sqrt: real -> real)
    requires |cfg.traces| <= |ds| && AllSane(ds) && IsSqrt(sqrt) && !HasSubplots(cfg)
    ensures var (mn, mx) := DataRange(cfg, ds, None);
            var r := RangeOpsAsWritten(cfg, ds, true, sqrt);
            (r.Ok? <==> mn == 0.0 && mx == 0.0) &&
            (r.Err? ==> r.error == ValueError) &&
            (r.Ok? ==> r.value == [AxisLimit(1, MinAllowed, 0.0), AxisLimit(1, MaxAllowed, 0.0)])
  {
    var (mn, mx) := DataRange(cfg, ds, None);
    if mn == 0.0 && mx == 0.0 {
      var c := Candidates(0.0, 0.0, Factor);
      assert c == [0.0, 0.0, 0.0, 0.0];
      assert c[0] in c;
    }
  }

  /** As written, two y axes always fail: ValueError, or ZeroDivisionError when both data ranges are all zero. */
  lemma AsWrittenDualAxisFails(cfg: GraphConfig, ds: seq<TraceData>, sqrt: real -> real)
    requires |cfg.traces| <= |ds| && AllSane(ds) && IsSqrt(sqrt) && HasSubplots(cfg)
    ensures var (mn1, mx1) := DataRange(cfg, ds, Some("primary"));
            var (mn2, mx2) := DataRange(cfg, ds, Some("secondary"));
            var r := RangeOpsAsWritten(cfg, ds, true, sqrt);
            r.Err? && r.error == (if mn1 == mx1 && mn2 == mx2 then ZeroDivisionError else ValueError)
  {
    var (mn1, mx1) := DataRange(cfg, ds, Some("primary"));
    var (mn2, mx2) := DataRange(cfg, ds, Some("secondary"));
    if mn1 == mx1 && mn2 == mx2 {
      SingleRangeStraddles(mx1, mn1, Factor);
      SingleRangeStraddles(mx2, mn2, Factor);
    }
  }

  /**
   * One trace with minimum -2 and maximum 10 on a single axis: the range call as
   * written raises ValueError, while the corrected one pins the axis to
   * [-2.2, 11].
   */
  lemma AsWrittenCounterexample(sqrt: real -> real)
    requires IsSqrt(sqrt)
    ensures var cfg := NewGraphConfig([NewTraceConfig("loss", "red")], "loss", 100);
            var ds := [EmptyTrace.(x := [0.0, 1.0], y := [10.0, -2.0], ymin := Fin(-2.0), ymax := Fin(10.0))];
            RangeOpsAsWritten(cfg, ds, true, sqrt) == Err(ValueError) &&
            RangeOps(cfg, ds, true, sqrt) == Ok([AxisLimit(1, MinAllowed, -2.2), AxisLimit(1, MaxAllowed, 11.0)])
  {
    var cfg := NewGraphConfig([NewTraceConfig("loss", "red")], "loss", 100);
    var ds := [EmptyTrace.(x := [0.0, 1.0], y := [10.0, -2.0], ymin := Fin(-2.0), ymax := Fin(10.0))];
    HasSubplotsNeedsSecondary(cfg);
    var mins, maxs := AxisMins(cfg, ds, None), AxisMaxs(cfg, ds, None);
    assert mins == [Fin(-2.0)] && maxs == [Fin(10.0)];
    assert mins[..0] == [] && maxs[..0] == [];
    assert DataRange(cfg, ds, None) == (-2.0, 10.0);
    SingleRangeExample();
  }

  /**
   * The cycle as written against the corrected one: both leave the stores and
   * the checkpoints the same. After a trace loop that got through and set a
   * flag, with one y axis the as-written cycle raises ValueError exactly when
   * the data range is not all zero, where the corrected one gets through;
   * with two y axes the as-written cycle always fails.
   */
  lemma AsWrittenCycle(cfg: GraphConfig, t2id: seq<RoleIds>, a2id: seq<RoleIds>, data: seq<TraceData>, chkp: seq<int>,
                       sqrt: real -> real)
    requires AllSane(data) && IsSqrt(sqrt)
    ensures var c, w := Cycle(cfg, t2id, a2id, data, chkp, sqrt), CycleAsWritten(cfg, t2id, a2id, data, chkp, sqrt);
            var o := Run(cfg, t2id, a2id, Start(data, chkp), 0);
            c.p.data == w.p.data && c.p.chkp == w.p.chkp &&
            (o.failure.None? && o.p.anyChange && HasSubplots(cfg) ==> w.failure.Some?) &&
            (o.failure.None? && o.p.anyChange && !HasSubplots(cfg) ==>
               c.failure.None? && |cfg.traces| <= |data| &&
               (w.failure.None? <==> DataRange(cfg, data, None) == (0.0, 0.0)) &&
               (w.failure.Some? ==> w.failure == Some(ValueError)))
  {
    RunFrame(cfg, t2id, a2id, Start(data, chkp));
    var o := Run(cfg, t2id, a2id, Start(data, chkp), 0);
    if o.failure.None? && o.p.anyChange && !HasSubplots(cfg) {
      assert forall i :: 0 <= i < |data| ==> o.p.data[i].ymin == data[i].ymin && o.p.data[i].ymax == data[i].ymax by {
        forall i | 0 <= i < |data|
          ensures o.p.data[i].ymin == data[i].ymin && o.p.data[i].ymax == data[i].ymax
        {
          assert SameButFlags(o.p.data[i], data[i]);
        }
      }
      assert AxisMins(cfg, o.p.data, None) == AxisMins(cfg, data, None);
      assert AxisMaxs(cfg, o.p.data, None) == AxisMaxs(cfg, data, None);
      AsWrittenSingleAxis(cfg, o.p.data, sqrt);
    }
  }

  /** The patch the callback returns extends trace 0's x and y by 0.5 and touches no other trace. */
  lemma DebugPatchEffect(id: nat, cur: seq<real>)
    ensures id == 0 ==> Apply(DebugPatch, id, X, cur) == cur + [0.5] && Apply(DebugPatch, id, Y, cur) == cur + [0.5]
    ensures id != 0 ==> Apply(DebugPatch, id, X, cur) == cur && Apply(DebugPatch, id, Y, cur) == cur
  {
    if id == 0 {
      ExtendBoth([0.5], [0.5], 0, cur);
    }
  }

  /** The readout shows the rate the producer's `batchtimer("read")` reports, or the placeholder when that is 0 for lack of timings. */
  lemma ProcSpeedMatchesReadSpeed(speed: seq<real>)
    ensures UpdateProcSpeed(speed) == if |speed| == 0 then Placeholder else Rate(Plotter.ReadSpeed(speed))
  {
  }
}
