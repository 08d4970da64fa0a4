/**
 * What both generations of `DashPlotter` share: the setup options they read, the
 * subplot flag they derive per graph, the dictionary store they build, and the
 * way one sample enters that store.
 */
module PlotterCore {
  import opened Py
  import opened DataStore

  /** The keys of one trace's setup options that the plotter reads: the axis `T` and the band flag `E`. */
  datatype TraceOpts = TraceOpts(T: string, E: PyVal)

  /** One graph's setup options: its traces in key order, `downsamplex` (False or a count) and `totalx`. */
  datatype GraphOpts = GraphOpts(traces: seq<TraceOpts>, downsamplex: PyVal, totalx: int)

  /** The dictionary store: graph number, then trace number (both from 1), then that trace's entries. */
  type Buffers = map<int, map<int, TraceData>>

  ghost predicate UsesSecondary(o: GraphOpts)
  {
    exists t :: 0 <= t < |o.traces| && o.traces[t].T == "secondary"
  }

  /**
   * The loop at the top of `__init__`: a graph's `subplots` option becomes True
   * exactly when at least one of its traces has `T == "secondary"`.
   */
  method SubplotFlags(opts: seq<GraphOpts>) returns (flags: seq<bool>)
    ensures |flags| == |opts|
    ensures forall g :: 0 <= g < |opts| ==> (flags[g] <==> UsesSecondary(opts[g]))
  {
    flags := [];
    var g := 0;
    while g < |opts|
      invariant g <= |opts| && |flags| == g
      invariant forall k :: 0 <= k < g ==> (flags[k] <==> UsesSecondary(opts[k]))
    {
      var anyUsesSubplots := false;
      var t := 0;
      while t < |opts[g].traces|
        invariant t <= |opts[g].traces|
        invariant anyUsesSubplots <==> exists k :: 0 <= k < t && opts[g].traces[k].T == "secondary"
      {
        if opts[g].traces[t].T == "secondary" {
          anyUsesSubplots := true;
        }
        t := t + 1;
      }
      flags := flags + [anyUsesSubplots];
      g := g + 1;
    }
  }

  /** The count numpy's `linspace` takes from a `bool | int` option: True counts as 1, False as 0, and a string raises TypeError. */
  function LinspaceCount(v: PyVal): (r: Result<int>)
    ensures v.PyBool? ==> r == Ok(if v.b then 1 else 0)
    ensures v.PyInt? ==> r == Ok(v.i)
    ensures v.PyStr? ==> r == Err(TypeError)
  {
    match v
    case PyBool(b) => Ok(if b then 1 else 0)
    case PyInt(i) => Ok(i)
    case PyStr(_) => Err(TypeError)
  }

  /** A trace's `xDown` entry: absent when `downsamplex` is False, else `linspace(0, totalx, downsamplex)`. */
  function XDownFor(o: GraphOpts): (r: Result<Option<seq<real>>>)
    ensures IsFalse(o.downsamplex) ==> r == Ok(None)
    ensures o.downsamplex.PyInt? && o.downsamplex.i >= 0 ==>
              r == Ok(Some(Linspace(0.0, o.totalx as real, o.downsamplex.i).value))
    ensures r.Err? <==> !IsFalse(o.downsamplex) && (o.downsamplex.PyStr? || (o.downsamplex.PyInt? && o.downsamplex.i < 0))
  {
    if IsFalse(o.downsamplex) then Ok(None)
    else
      var n :- LinspaceCount(o.downsamplex);
      var g :- Linspace(0.0, o.totalx as real, n);
      Ok(Some(g))
  }

  /** The entries `_make_store` writes for one trace. */
  function InitTrace(o: GraphOpts, t: TraceOpts): Result<TraceData>
  {
    var xd :- XDownFor(o);
    var bands := if t.E == PyBool(true) then Some([]) else None;
    Ok(EmptyTrace.(ylo := bands, yhi := bands, xdown := xd))
  }

  /** The first n traces of a graph, numbered from 1, or the first exception. */
  function GraphPrefix(o: GraphOpts, n: nat): Result<map<int, TraceData>>
    requires n <= |o.traces|
  {
    if n == 0 then Ok(map[])
    else
      var m :- GraphPrefix(o, n - 1);
      var d :- InitTrace(o, o.traces[n - 1]);
      Ok(m[n := d])
  }

  /** The first n graphs of the store, numbered from 1, or the first exception. */
  function StorePrefix(opts: seq<GraphOpts>, n: nat): Result<Buffers>
    requires n <= |opts|
  {
    if n == 0 then Ok(map[])
    else
      var s :- StorePrefix(opts, n - 1);
      var m :- GraphPrefix(opts[n - 1], |opts[n - 1].traces|);
      Ok(s[n := m])
  }

  /** The store `_make_store` builds. */
  function InitialBuffers(opts: seq<GraphOpts>): Result<Buffers>
  {
    StorePrefix(opts, |opts|)
  }

  /** The trace loops of `_make_store`, counting graphs and traces from 1. */
  method MakeBuffers(opts: seq<GraphOpts>) returns (r: Result<Buffers>)
    ensures r == InitialBuffers(opts)
  {
    var store: Buffers := map[];
    var g := 1;
    while g <= |opts|
      invariant 1 <= g <= |opts| + 1
      invariant StorePrefix(opts, g - 1) == Ok(store)
    {
      var o := opts[g - 1];
      var graph: map<int, TraceData> := map[];
      var t := 1;
      while t <= |o.traces|
        invariant 1 <= t <= |o.traces| + 1
        invariant GraphPrefix(o, t - 1) == Ok(graph)
      {
        var d := InitTrace(o, o.traces[t - 1]);
        if d.Err? {
          PrefixFails(opts, g, t);
          return Err(d.error);
        }
        graph := graph[t := d.value];
        t := t + 1;
      }
      store := store[g := graph];
      g := g + 1;
    }
    r := Ok(store);
  }

  /** A failing trace makes the whole store fail with its exception. */
  lemma PrefixFails(opts: seq<GraphOpts>, g: nat, t: nat)
    requires 1 <= g <= |opts| && 1 <= t <= |opts[g - 1].traces|
    requires StorePrefix(opts, g - 1).Ok? && GraphPrefix(opts[g - 1], t - 1).Ok?
    requires InitTrace(opts[g - 1], opts[g - 1].traces[t - 1]).Err?
    ensures InitialBuffers(opts) == Err(InitTrace(opts[g - 1], opts[g - 1].traces[t - 1]).error)
  {
    var e := InitTrace(opts[g - 1], opts[g - 1].traces[t - 1]).error;
    GraphPrefixFails(opts[g - 1], t, |opts[g - 1].traces|);
    StorePrefixFails(opts, g, |opts|, e);
  }

  lemma {:induction false} GraphPrefixFails(o: GraphOpts, t: nat, n: nat)
    requires 1 <= t <= n <= |o.traces|
    requires GraphPrefix(o, t - 1).Ok? && InitTrace(o, o.traces[t - 1]).Err?
    ensures GraphPrefix(o, n) == Err(InitTrace(o, o.traces[t - 1]).error)
  {
    if n > t {
      GraphPrefixFails(o, t, n - 1);
    }
  }

  lemma {:induction false} StorePrefixFails(opts: seq<GraphOpts>, g: nat, n: nat, e: PyError)
    requires 1 <= g <= n <= |opts|
    requires StorePrefix(opts, g - 1).Ok? && GraphPrefix(opts[g - 1], |opts[g - 1].traces|) == Err(e)
    ensures StorePrefix(opts, n) == Err(e)
  {
    if n > g {
      StorePrefixFails(opts, g, n - 1, e);
    }
  }

  /**
   * The store's shape: graphs 1..|opts|, each with traces 1..|traces|, every
   * trace empty with extrema at the infinities and flags down, band lists exactly
   * when `E is True`, and the downsampling grid exactly when `downsamplex` is
   * not False.
   */
  lemma {:induction false} InitialBuffersShape(opts: seq<GraphOpts>, n: nat)
    requires n <= |opts| && StorePrefix(opts, n).Ok?
    ensures var s := StorePrefix(opts, n).value;
            (forall g :: g in s <==> 1 <= g <= n) &&
            (forall g :: 1 <= g <= n ==> forall t :: t in s[g] <==> 1 <= t <= |opts[g - 1].traces|) &&
            (forall g, t :: 1 <= g <= n && 1 <= t <= |opts[g - 1].traces| ==>
               var d := s[g][t];
               d.x == [] && d.y == [] && d.ymin == PosInf && d.ymax == NegInf && !d.ynewmin && !d.ynewmax &&
               (d.ylo.Some? <==> opts[g - 1].traces[t - 1].E == PyBool(true)) && d.ylo == d.yhi &&
               (d.ylo.Some? ==> d.ylo.value == []) &&
               (d.xdown.Some? <==> !IsFalse(opts[g - 1].downsamplex)) &&
               Ok(d.xdown) == XDownFor(opts[g - 1]))
  {
    if n > 0 {
      InitialBuffersShape(opts, n - 1);
      GraphShape(opts[n - 1], |opts[n - 1].traces|);
    }
  }

  lemma {:induction false} GraphShape(o: GraphOpts, n: nat)
    requires n <= |o.traces| && GraphPrefix(o, n).Ok?
    ensures var m := GraphPrefix(o, n).value;
            (forall t :: t in m <==> 1 <= t <= n) &&
            (forall t :: 1 <= t <= n ==>
               var d := m[t];
               d.x == [] && d.y == [] && d.ymin == PosInf && d.ymax == NegInf && !d.ynewmin && !d.ynewmax &&
               (d.ylo.Some? <==> o.traces[t - 1].E == PyBool(true)) && d.ylo == d.yhi &&
               (d.ylo.Some? ==> d.ylo.value == []) &&
               (d.xdown.Some? <==> !IsFalse(o.downsamplex)) &&
               Ok(d.xdown) == XDownFor(o))
  {
    if n > 0 {
      GraphShape(o, n - 1);
    }
  }

  /** Python's `y < m` against a running minimum that may be +inf. */
  predicate Below(y: real, m: Ext)
  {
    ExtLt(Fin(y), m)
  }

  /** Python's `y > m` against a running maximum that may be -inf. */
  predicate Above(y: real, m: Ext)
  {
    ExtLt(m, Fin(y))
  }

  /** The running-extrema update of `add_data`: only a strictly better sample replaces a bound and raises its flag. */
  function Track(d: TraceData, y: real): (d': TraceData)
  {
    var d1 := if Below(y, d.ymin) then d.(ymin := Fin(y), ynewmin := true) else d;
    if Above(y, d1.ymax) then d1.(ymax := Fin(y), ynewmax := true) else d1
  }

  /**
   * `add_data` on one trace's entries: x and y are appended, then, when both
   * deviations are given, `y - lo` and `y + hi` to the band lists (KeyError when a
   * band list is missing, raised after x and y were appended), then the extrema.
   */
  function AddSample(d: TraceData, x: real, y: real, lo: Option<real>, hi: Option<real>): (Result<()>, TraceData)
  {
    var d1 := d.(x := d.x + [x], y := d.y + [y]);
    if lo.Some? && hi.Some? then
      if d1.ylo.None? then (Err(KeyError), d1)
      else
        var d2 := d1.(ylo := Some(d1.ylo.value + [y - lo.value]));
        if d2.yhi.None? then (Err(KeyError), d2)
        else (Ok(()), Track(d2.(yhi := Some(d2.yhi.value + [y + hi.value])), y))
    else (Ok(()), Track(d1, y))
  }

  /** Every path appends exactly one x and one y; the grid never changes. */
  lemma AddSampleAppends(d: TraceData, x: real, y: real, lo: Option<real>, hi: Option<real>)
    ensures var (_, d') := AddSample(d, x, y, lo, hi);
            d'.x == d.x + [x] && d'.y == d.y + [y] && d'.xdown == d.xdown
  {
  }

  /** The bands grow by `y - lo` and `y + hi` only when both are given; otherwise they are left alone. */
  lemma AddSampleBands(d: TraceData, x: real, y: real, lo: Option<real>, hi: Option<real>)
    ensures var (r, d') := AddSample(d, x, y, lo, hi);
            (lo.None? || hi.None? ==> r.Ok? && d'.ylo == d.ylo && d'.yhi == d.yhi) &&
            (lo.Some? && hi.Some? && d.ylo.Some? && d.yhi.Some? ==>
               r.Ok? && d'.ylo == Some(d.ylo.value + [y - lo.value]) && d'.yhi == Some(d.yhi.value + [y + hi.value])) &&
            (r.Err? <==> lo.Some? && hi.Some? && (d.ylo.None? || d.yhi.None?)) &&
            (r.Err? ==> r.error == KeyError)
  {
  }

  /**
   * On success ymin becomes y exactly when y is strictly below it, and its flag is
   * raised exactly then (or stays raised); likewise for ymax. A failed call leaves
   * the extrema and flags as they were.
   */
  lemma AddSampleExtrema(d: TraceData, x: real, y: real, lo: Option<real>, hi: Option<real>)
    ensures var (r, d') := AddSample(d, x, y, lo, hi);
            (r.Ok? ==>
               d'.ymin == (if Below(y, d.ymin) then Fin(y) else d.ymin) &&
               d'.ynewmin == (d.ynewmin || Below(y, d.ymin)) &&
               d'.ymax == (if Above(y, d.ymax) then Fin(y) else d.ymax) &&
               d'.ynewmax == (d.ynewmax || Above(y, d.ymax))) &&
            (r.Err? ==> d'.ymin == d.ymin && d'.ymax == d.ymax && d'.ynewmin == d.ynewmin && d'.ynewmax == d.ynewmax)
  {
  }

  /** The running extrema agree with the samples: none yet, or the least and greatest y. */
  predicate Tracks(d: TraceData)
  {
    if |d.y| == 0 then d.ymin == PosInf && d.ymax == NegInf
    else d.ymin == Fin(Min(d.y)) && d.ymax == Fin(Max(d.y))
  }

  /** A successful `add_data` keeps the extrema equal to the minimum and maximum over all of y. */
  lemma AddSampleTracks(d: TraceData, x: real, y: real, lo: Option<real>, hi: Option<real>)
    requires Tracks(d)
    ensures var (r, d') := AddSample(d, x, y, lo, hi); r.Ok? ==> Tracks(d')
  {
    var (r, d') := AddSample(d, x, y, lo, hi);
    AddSampleAppends(d, x, y, lo, hi);
    AddSampleExtrema(d, x, y, lo, hi);
    if r.Ok? && |d.y| > 0 {
      var ys := d.y + [y];
      MinAppend(d.y, y);
      MaxAppend(d.y, y);
    }
  }

  lemma MinAppend(s: seq<real>, v: real)
    requires |s| > 0
    ensures Min(s + [v]) == if v < Min(s) then v else Min(s)
  {
    var t := s + [v];
    var m, e := Min(t), if v < Min(s) then v else Min(s);
    assert t[|s|] == v;
    assert forall k :: 0 <= k < |s| ==> t[k] == s[k];
    assert e <= m by {
      var k :| 0 <= k < |t| && t[k] == m;
      if k < |s| {
        assert s[k] == m;
      }
    }
    assert m <= e by {
      if v >= Min(s) {
        var k :| 0 <= k < |s| && s[k] == Min(s);
        assert t[k] == Min(s);
      }
    }
  }

  lemma MaxAppend(s: seq<real>, v: real)
    requires |s| > 0
    ensures Max(s + [v]) == if v > Max(s) then v else Max(s)
  {
    var t := s + [v];
    var m, e := Max(t), if v > Max(s) then v else Max(s);
    assert t[|s|] == v;
    assert forall k :: 0 <= k < |s| ==> t[k] == s[k];
    assert m <= e by {
      var k :| 0 <= k < |t| && t[k] == m;
      if k < |s| {
        assert s[k] == m;
      }
    }
    assert e <= m by {
      if v <= Max(s) {
        var k :| 0 <= k < |s| && s[k] == Max(s);
        assert t[k] == Max(s);
      }
    }
  }

  /** A trace missing its band lists but given both deviations ends with a sample its extrema never saw. */
  lemma AddSampleKeyErrorLeavesExtremaStale(x: real, y: real, lo: real, hi: real)
    ensures var (r, d') := AddSample(EmptyTrace, x, y, Some(lo), Some(hi));
            r == Err(KeyError) && d'.y == [y] && d'.ymin == PosInf && !Tracks(d')
  {
  }

  /** A successful sample never lets ymin rise or ymax fall, and keeps both away from the wrong infinity. */
  lemma AddSampleMonotone(d: TraceData, x: real, y: real, lo: Option<real>, hi: Option<real>)
    requires ExtremaSane(d)
    ensures var (r, d') := AddSample(d, x, y, lo, hi);
            ExtremaSane(d') && !ExtLt(d.ymin, d'.ymin) && !ExtLt(d'.ymax, d.ymax) &&
            (r.Ok? ==> !Below(y, d'.ymin) && !Above(y, d'.ymax))
  {
    AddSampleExtrema(d, x, y, lo, hi);
  }

  /** The first sample of an empty trace sets both extrema to it and raises both flags. */
  lemma FirstSampleSetsBoth(x: real, y: real)
    ensures var (r, d') := AddSample(EmptyTrace, x, y, None, None);
            r.Ok? && d'.ymin == Fin(y) && d'.ymax == Fin(y) && d'.ynewmin && d'.ynewmax
  {
  }

  /** `add_data(graph, trace, ...)` on the whole store: KeyError for an unknown graph or trace, else `AddSample` there. */
  function StoreAdd(s: Buffers, graph: int, trace: int, x: real, y: real, lo: Option<real>, hi: Option<real>): (Result<()>, Buffers)
  {
    if graph !in s || trace !in s[graph] then (Err(KeyError), s)
    else
      var (r, d') := AddSample(s[graph][trace], x, y, lo, hi);
      (r, s[graph := s[graph][trace := d']])
  }

  /** Only the addressed trace changes; every other trace and the key sets stay as they were. */
  lemma StoreAddFrames(s: Buffers, graph: int, trace: int, x: real, y: real, lo: Option<real>, hi: Option<real>)
    ensures var (r, s') := StoreAdd(s, graph, trace, x, y, lo, hi);
            s'.Keys == s.Keys && (forall g :: g in s ==> s'[g].Keys == s[g].Keys) &&
            (forall g, t :: g in s && t in s[g] && (g != graph || t != trace) ==> s'[g][t] == s[g][t]) &&
            (graph !in s || trace !in s[graph] ==> r == Err(KeyError) && s' == s)
  {
  }

  /** Samples 5, 3, 7, 1 into one trace: the extrema end at 1 and 7 and both flags are up. */
  lemma ExtremaExample()
    ensures var (_, d1) := AddSample(EmptyTrace, 0.0, 5.0, None, None);
            var (_, d2) := AddSample(d1, 1.0, 3.0, None, None);
            var (_, d3) := AddSample(d2, 2.0, 7.0, None, None);
            var (_, d4) := AddSample(d3, 3.0, 1.0, None, None);
            d4.ymin == Fin(1.0) && d4.ymax == Fin(7.0) && d4.ynewmin && d4.ynewmax && d4.y == [5.0, 3.0, 7.0, 1.0]
  {
  }
}
