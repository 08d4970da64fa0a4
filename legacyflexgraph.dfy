/**
 * The first generation of `make_flexgraph`: the figure's traces are added in
 * five passes (error bands, main lines, min line, max line, end points) and
 * each one is entered into the graph's name-to-trace dictionary `n2t` under
 * the key "t<nr>_<role>" with the dictionary's length at that moment as its
 * id. The trace number is the last character of the trace's key.
 */
module LegacyFlexgraph {
  import opened Py
  import opened Colors

  /** The roles a figure trace plays, in the order of the passes. */
  datatype Role = Lo | Hi | Main | MinLine | MaxLine | Point

  /** The options of one trace that the passes read: its key ("trace1"), its axis `T` and its flags `E` and `P`. */
  datatype TraceOpts = TraceOpts(key: string, T: string, E: PyVal, P: PyVal)

  /** One graph's options: its traces in key order, the `subplots` flag the plotter set, `showmin`/`showmax` and the y labels. */
  datatype GraphOpts = GraphOpts(traces: seq<TraceOpts>, subplots: bool, showmin: PyVal, showmax: PyVal, ylabel1: PyVal, ylabel2: PyVal)

  /** A trace added to the figure: its role, its trace number, the configured trace it was made from, and its y axis. */
  datatype FigTrace = FigTrace(role: Role, nr: nat, index: nat, secondary: bool)

  /** `int(key[-1])`: the digit the key ends with; IndexError on an empty key, ValueError on a non-digit. */
  function TraceNumber(key: string): (r: Result<nat>)
    ensures r.Ok? ==> r.value < 10 && |key| > 0 && IsDigit(key[|key| - 1]) && r.value == Digit(key[|key| - 1])
    ensures r.Err? <==> |key| == 0 || !IsDigit(key[|key| - 1])
    ensures |key| == 0 ==> r == Err(IndexError)
    ensures |key| > 0 && !IsDigit(key[|key| - 1]) ==> r == Err(ValueError)
  {
    if |key| == 0 then Err(IndexError)
    else if IsDigit(key[|key| - 1]) then Ok(Digit(key[|key| - 1]))
    else Err(ValueError)
  }

  /** Whether a trace goes on the secondary y axis: with subplots, secondary exactly when `T` is not "primary". */
  predicate OnSecondary(g: GraphOpts, t: TraceOpts)
  {
    g.subplots && t.T != "primary"
  }

  /**
   * `trc[key]`: the position of the last trace with that key, the one a dict
   * built by assigning the entries in turn keeps; KeyError when there is none.
   */
  function Lookup(traces: seq<TraceOpts>, key: string): (r: Result<nat>)
    ensures r.Ok? ==> r.value < |traces| && traces[r.value].key == key
    ensures r.Ok? ==> forall k :: r.value < k < |traces| ==> traces[k].key != key
    ensures r.Err? <==> forall k :: 0 <= k < |traces| ==> traces[k].key != key
    ensures r.Err? ==> r.error == KeyError
    decreases |traces|
  {
    if |traces| == 0 then Err(KeyError)
    else if traces[|traces| - 1].key == key then Ok(|traces| - 1)
    else Lookup(traces[..|traces| - 1], key)
  }

  /** The suffix of a role's key in `n2t`. */
  function Suffix(role: Role): string
  {
    match role
    case Lo => "_lo"
    case Hi => "_hi"
    case Main => "_main"
    case MinLine => "_minline"
    case MaxLine => "_maxline"
    case Point => "_point"
  }

  /** The key `f"t{t}_{role}"` a figure trace is entered under. */
  function Key(f: FigTrace): string
  {
    "t" + IntText(f.nr) + Suffix(f.role)
  }

  /** The three looped passes. */
  datatype Pass = ErrorPass | MainPass | PointPass

  /**
   * What one pass adds for trace k: the lo and hi band (only when `E` is not
   * False), the main line, or the end point (only when `P` is not False);
   * `int(key[-1])` can raise.
   */
  function PassStep(g: GraphOpts, pass: Pass, k: nat): (r: Result<seq<FigTrace>>)
    requires k < |g.traces|
    ensures r.Ok? ==> forall i :: 0 <= i < |r.value| ==> r.value[i].index == k
  {
    var t := g.traces[k];
    var sec := OnSecondary(g, t);
    match pass
    case ErrorPass =>
      if IsFalse(t.E) then Ok([])
      else
        var nr :- TraceNumber(t.key);
        Ok([FigTrace(Lo, nr, k, sec), FigTrace(Hi, nr, k, sec)])
    case MainPass =>
      var nr :- TraceNumber(t.key);
      Ok([FigTrace(Main, nr, k, sec)])
    case PointPass =>
      if IsFalse(t.P) then Ok([])
      else
        var nr :- TraceNumber(t.key);
        Ok([FigTrace(Point, nr, k, sec)])
  }

  /** What a step adds and the exception that ends the run, if any. */
  type Run = (seq<FigTrace>, Option<PyError>)

  function FromResult(r: Result<seq<FigTrace>>): Run
  {
    if r.Err? then ([], Some(r.error)) else (r.value, None)
  }

  /** A pass from trace k on: the traces it adds up to the first exception. */
  function PassFrom(g: GraphOpts, pass: Pass, k: nat): Run
    decreases |g.traces| - k
  {
    if k >= |g.traces| then ([], None)
    else
      var s := PassStep(g, pass, k);
      if s.Err? then ([], Some(s.error))
      else
        var rest := PassFrom(g, pass, k + 1);
        (s.value + rest.0, rest.1)
  }

  /**
   * `_add_traces_min` / `_add_traces_max`: nothing when the option is False;
   * otherwise the option must be a trace key (indexing an int or True raises
   * TypeError), whose last character gives the number and which must name a
   * trace (KeyError).
   */
  function LineStep(g: GraphOpts, role: Role, v: PyVal): (r: Result<seq<FigTrace>>)
    ensures IsFalse(v) ==> r == Ok([])
    ensures v.PyInt? || v == PyBool(true) ==> r == Err(TypeError)
  {
    if IsFalse(v) then Ok([])
    else if !v.PyStr? then Err(TypeError)
    else
      var nr :- TraceNumber(v.s);
      var k :- Lookup(g.traces, v.s);
      Ok([FigTrace(role, nr, k, OnSecondary(g, g.traces[k]))])
  }

  /** Running a step after a run that has not raised. */
  function Then(a: Run, b: Run): (r: Run)
  {
    if a.1.Some? then a else (a.0 + b.0, b.1)
  }

  /** The figure's traces before the return, and the exception that ended the passes, if any. */
  function Layout(g: GraphOpts): Run
  {
    Then(Then(Then(Then(PassFrom(g, ErrorPass, 0), PassFrom(g, MainPass, 0)),
      FromResult(LineStep(g, MinLine, g.showmin))), FromResult(LineStep(g, MaxLine, g.showmax))),
      PassFrom(g, PointPass, 0))
  }

  /** Whether `fig` is bound at `return fig`: only the label helpers assign it. */
  predicate FigBound(g: GraphOpts)
  {
    if g.subplots then !IsFalse(g.ylabel1) || !IsFalse(g.ylabel2) else !IsFalse(g.ylabel1)
  }

  /** `n2t[g][key] = len(n2t[g])`: the length is taken before the key goes in, so a key already present keeps the length and gets the new id. */
  function Assign(ids: map<string, nat>, key: string): (r: map<string, nat>)
    ensures key in r && r[key] == |ids|
    ensures forall k :: k in ids && k != key ==> k in r && r[k] == ids[k]
    ensures key !in ids ==> |r| == |ids| + 1
  {
    ids[key := |ids|]
  }

  /** Every figure trace entered in order. */
  function Replay(ids: map<string, nat>, fs: seq<FigTrace>): map<string, nat>
    decreases |fs|
  {
    if |fs| == 0 then ids else Replay(Assign(ids, Key(fs[0])), fs[1..])
  }

  /** The graph's entry of `n2t`, which the passes fill in. */
  class TraceMap {
    var ids: map<string, nat>

    constructor ()
      ensures ids == map[]
    {
      ids := map[];
    }

    /** One assignment `n2t[g][key] = len(n2t[g])`. */
    method Enter(key: string)
      modifies this
      ensures ids == Assign(old(ids), key)
    {
      ids := ids[key := |ids|];
    }

    /** The entries of the given figure traces, one after the other. */
    method EnterAll(fs: seq<FigTrace>)
      modifies this
      ensures ids == Replay(old(ids), fs)
    {
      var i := 0;
      while i < |fs|
        invariant i <= |fs|
        invariant Replay(old(ids), fs) == Replay(ids, fs[i..])
      {
        assert fs[i..][1..] == fs[i + 1..];
        Enter(Key(fs[i]));
        i := i + 1;
      }
    }
  }

  /** Replaying two lists is replaying their concatenation. */
  lemma {:induction false} ReplayConcat(ids: map<string, nat>, a: seq<FigTrace>, b: seq<FigTrace>)
    ensures Replay(ids, a + b) == Replay(Replay(ids, a), b)
    decreases |a|
  {
    if |a| > 0 {
      assert (a + b)[0] == a[0] && (a + b)[1..] == a[1..] + b;
      ReplayConcat(Assign(ids, Key(a[0])), a[1..], b);
    } else {
      assert a + b == b;
    }
  }

  /**
   * `_add_traces_error`, `_add_traces_main` and `_add_traces_point`: for each
   * trace in key order its figure traces are added and entered into `n2t`;
   * the first exception ends the pass.
   */
  method AddPass(g: GraphOpts, pass: Pass, n2t: TraceMap, fig0: seq<FigTrace>) returns (fig: seq<FigTrace>, failure: Option<PyError>)
    modifies n2t
    ensures fig == fig0 + PassFrom(g, pass, 0).0 && failure == PassFrom(g, pass, 0).1
    ensures n2t.ids == Replay(old(n2t.ids), PassFrom(g, pass, 0).0)
  {
    fig, failure := fig0, None;
    var k := 0;
    while k < |g.traces|
      invariant k <= |g.traces|
      invariant fig0 + PassFrom(g, pass, 0).0 == fig + PassFrom(g, pass, k).0
      invariant PassFrom(g, pass, 0).1 == PassFrom(g, pass, k).1
      invariant Replay(old(n2t.ids), PassFrom(g, pass, 0).0) == Replay(n2t.ids, PassFrom(g, pass, k).0)
    {
      var s := PassStep(g, pass, k);
      if s.Err? {
        assert PassFrom(g, pass, k) == ([], Some(s.error));
        return fig, Some(s.error);
      }
      ghost var rest := PassFrom(g, pass, k + 1);
      assert PassFrom(g, pass, k) == (s.value + rest.0, rest.1);
      ReplayConcat(n2t.ids, s.value, rest.0);
      assert fig + (s.value + rest.0) == (fig + s.value) + rest.0;
      fig := fig + s.value;
      n2t.EnterAll(s.value);
      k := k + 1;
    }
  }

  /** `_add_traces_min` and `_add_traces_max`: the line, if any, added and entered. */
  method AddLine(g: GraphOpts, role: Role, v: PyVal, n2t: TraceMap, fig0: seq<FigTrace>) returns (fig: seq<FigTrace>, failure: Option<PyError>)
    modifies n2t
    ensures fig == fig0 + FromResult(LineStep(g, role, v)).0 && failure == FromResult(LineStep(g, role, v)).1
    ensures n2t.ids == Replay(old(n2t.ids), FromResult(LineStep(g, role, v)).0)
  {
    var s := LineStep(g, role, v);
    if s.Err? {
      return fig0, Some(s.error);
    }
    fig, failure := fig0 + s.value, None;
    n2t.EnterAll(s.value);
  }

  /** Entering what a step adds after a run that has not raised. */
  lemma ThenReplay(ids: map<string, nat>, a: Run, b: Run)
    requires a.1.None?
    ensures Replay(ids, Then(a, b).0) == Replay(Replay(ids, a.0), b.0)
  {
    ReplayConcat(ids, a.0, b.0);
  }

  /**
   * `make_flexgraph(setup_options, store, n2t, graphnr)`: the five passes in
   * order, then `return fig`, which raises UnboundLocalError unless a label
   * helper bound it (and then it is the figure). An exception in a pass leaves
   * `n2t` as far as it got.
   */
  method MakeFlexgraph(g: GraphOpts, n2t: TraceMap) returns (r: Result<seq<FigTrace>>)
    modifies n2t
    ensures n2t.ids == Replay(old(n2t.ids), Layout(g).0)
    ensures Layout(g).1.Some? ==> r == Err(Layout(g).1.value)
    ensures Layout(g).1.None? ==> r == if FigBound(g) then Ok(Layout(g).0) else Err(UnboundLocalError)
  {
    ghost var ids0 := n2t.ids;
    var fig, failure := AddPass(g, ErrorPass, n2t, []);
    ghost var run := PassFrom(g, ErrorPass, 0);
    assert fig == run.0;
    if failure.Some? {
      return Err(failure.value);
    }
    ghost var step: Run := PassFrom(g, MainPass, 0);
    fig, failure := AddPass(g, MainPass, n2t, fig);
    ThenReplay(ids0, run, step);
    run := Then(run, step);
    if failure.Some? {
      return Err(failure.value);
    }
    step := FromResult(LineStep(g, MinLine, g.showmin));
    fig, failure := AddLine(g, MinLine, g.showmin, n2t, fig);
    ThenReplay(ids0, run, step);
    run := Then(run, step);
    if failure.Some? {
      return Err(failure.value);
    }
    step := FromResult(LineStep(g, MaxLine, g.showmax));
    fig, failure := AddLine(g, MaxLine, g.showmax, n2t, fig);
    ThenReplay(ids0, run, step);
    run := Then(run, step);
    if failure.Some? {
      return Err(failure.value);
    }
    step := PassFrom(g, PointPass, 0);
    fig, failure := AddPass(g, PointPass, n2t, fig);
    ThenReplay(ids0, run, step);
    run := Then(run, step);
    assert run == Layout(g);
    if failure.Some? {
      return Err(failure.value);
    }
    if !FigBound(g) {
      return Err(UnboundLocalError);
    }
    r := Ok(fig);
  }
}
