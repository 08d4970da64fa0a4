/**
 * What the first-generation `make_flexgraph` promises about its figure and
 * its `n2t` entries: the passes' order, where each figure trace comes from,
 * and that every id is the trace's position in the figure as long as no two
 * figure traces share a key.
 */
module LegacyFlexgraphProperties {
  import opened Py
  import opened Colors
  import opened LegacyFlexgraph

  /** The pass a role belongs to, in the order the passes run. */
  function Stage(r: Role): nat
  {
    match r
    case Lo => 0
    case Hi => 0
    case Main => 1
    case MinLine => 2
    case MaxLine => 3
    case Point => 4
  }

  /** Figure traces whose passes never go backwards. */
  predicate Ordered(fs: seq<FigTrace>)
  {
    forall i, j :: 0 <= i < j < |fs| ==> Stage(fs[i].role) <= Stage(fs[j].role)
  }

  /** Figure traces all from passes lo..hi. */
  predicate Stages(fs: seq<FigTrace>, lo: nat, hi: nat)
  {
    forall i :: 0 <= i < |fs| ==> lo <= Stage(fs[i].role) <= hi
  }

  /** The stage of a looped pass. */
  function PassStage(pass: Pass): nat
  {
    match pass
    case ErrorPass => 0
    case MainPass => 1
    case PointPass => 4
  }

  /**
   * Figure traces that are what `make_flexgraph` makes of configured traces:
   * each names a configured trace, carries the number that trace's key ends
   * with, is on the secondary axis exactly when that trace belongs there, and
   * is a band only of a trace whose `E` is not False and an end point only of
   * a trace whose `P` is not False.
   */
  predicate Sound(g: GraphOpts, fs: seq<FigTrace>)
  {
    forall i :: 0 <= i < |fs| ==> SoundTrace(g, fs[i])
  }

  predicate SoundTrace(g: GraphOpts, f: FigTrace)
  {
    f.index < |g.traces| && TraceNumber(g.traces[f.index].key) == Ok(f.nr) &&
    (f.secondary <==> OnSecondary(g, g.traces[f.index])) &&
    ((f.role == Lo || f.role == Hi) ==> !IsFalse(g.traces[f.index].E)) &&
    (f.role == Point ==> !IsFalse(g.traces[f.index].P))
  }

  /** Within one role, the configured traces come in increasing key order, from trace k on. */
  predicate Increasing(fs: seq<FigTrace>, k: nat)
  {
    (forall i :: 0 <= i < |fs| ==> k <= fs[i].index) &&
    forall i, j :: 0 <= i < j < |fs| && fs[i].role == fs[j].role ==> fs[i].index < fs[j].index
  }

  /** The traces one pass step adds: the pass's roles, made from trace k. */
  lemma StepShape(g: GraphOpts, pass: Pass, k: nat)
    requires k < |g.traces|
    ensures var s := PassStep(g, pass, k);
            s.Ok? ==> Sound(g, s.value) && Stages(s.value, PassStage(pass), PassStage(pass)) && Increasing(s.value, k)
  {
  }

  /** Concatenating sound runs gives a sound run. */
  lemma SoundConcat(g: GraphOpts, a: seq<FigTrace>, b: seq<FigTrace>)
    requires Sound(g, a) && Sound(g, b)
    ensures Sound(g, a + b)
  {
    forall i | 0 <= i < |a + b|
      ensures (a + b)[i] == if i < |a| then a[i] else b[i - |a|]
    {
    }
  }

  /** A pass from trace k on adds sound traces of its own stage, each role's in key order. */
  lemma {:induction false} PassShape(g: GraphOpts, pass: Pass, k: nat)
    ensures var fs := PassFrom(g, pass, k).0;
            Sound(g, fs) && Stages(fs, PassStage(pass), PassStage(pass)) && Increasing(fs, k)
    decreases |g.traces| - k
  {
    if k < |g.traces| {
      var s := PassStep(g, pass, k);
      if s.Ok? {
        StepShape(g, pass, k);
        PassShape(g, pass, k + 1);
        var rest := PassFrom(g, pass, k + 1).0;
        SoundConcat(g, s.value, rest);
        IncreasingConcat(s.value, rest, k, k);
      }
    }
  }

  /** Increasing traces from k to m, then increasing traces from m + 1 on, increase from k on. */
  lemma IncreasingConcat(a: seq<FigTrace>, b: seq<FigTrace>, k: nat, m: nat)
    requires Increasing(a, k) && (forall i :: 0 <= i < |a| ==> a[i].index <= m) && Increasing(b, m + 1) && k <= m
    ensures Increasing(a + b, k)
  {
    var c := a + b;
    forall i | 0 <= i < |c|
      ensures c[i] == if i < |a| then a[i] else b[i - |a|]
    {
    }
    forall i, j | 0 <= i < j < |c| && c[i].role == c[j].role
      ensures c[i].index < c[j].index
    {
      if j < |a| {
        assert c[i] == a[i] && c[j] == a[j];
      } else if i >= |a| {
        assert c[i] == b[i - |a|] && c[j] == b[j - |a|];
      } else {
        assert c[i] == a[i] && c[j] == b[j - |a|];
      }
    }
  }

  /** The line an extremum option adds, if any: a sound trace of its own stage. */
  lemma LineShape(g: GraphOpts, role: Role, v: PyVal)
    requires role == MinLine || role == MaxLine
    ensures var fs := FromResult(LineStep(g, role, v)).0;
            Sound(g, fs) && Stages(fs, Stage(role), Stage(role)) && |fs| <= 1 &&
            forall i :: 0 <= i < |fs| ==> fs[i].role == role
  {
  }

  /** Runs of earlier stages followed by a step of a later stage stay in stage order. */
  lemma ThenOrdered(a: Run, b: Run, lo: nat, m: nat, hi: nat)
    requires Ordered(a.0) && Stages(a.0, lo, m) && Ordered(b.0) && Stages(b.0, m, hi) && lo <= m <= hi
    ensures Ordered(Then(a, b).0) && Stages(Then(a, b).0, lo, hi)
  {
    var c := Then(a, b).0;
    if a.1.None? {
      forall i | 0 <= i < |c|
        ensures c[i] == if i < |a.0| then a.0[i] else b.0[i - |a.0|]
      {
      }
    }
  }

  /** Traces all of one stage are in stage order. */
  lemma SameStageOrdered(fs: seq<FigTrace>, s: nat)
    requires Stages(fs, s, s)
    ensures Ordered(fs)
  {
  }

  /**
   * Figure insertion order: all error bands, then all main lines, then the min
   * line, then the max line, then all end points.
   */
  lemma LayoutOrdered(g: GraphOpts)
    ensures Ordered(Layout(g).0)
  {
    var e, m, p := PassFrom(g, ErrorPass, 0), PassFrom(g, MainPass, 0), PassFrom(g, PointPass, 0);
    var lo, hi := FromResult(LineStep(g, MinLine, g.showmin)), FromResult(LineStep(g, MaxLine, g.showmax));
    PassShape(g, ErrorPass, 0);
    PassShape(g, MainPass, 0);
    PassShape(g, PointPass, 0);
    LineShape(g, MinLine, g.showmin);
    LineShape(g, MaxLine, g.showmax);
    SameStageOrdered(e.0, 0);
    SameStageOrdered(m.0, 1);
    SameStageOrdered(lo.0, 2);
    SameStageOrdered(hi.0, 3);
    SameStageOrdered(p.0, 4);
    ThenOrdered(e, m, 0, 1, 1);
    ThenOrdered(Then(e, m), lo, 0, 2, 2);
    ThenOrdered(Then(Then(e, m), lo), hi, 0, 3, 3);
    ThenOrdered(Then(Then(Then(e, m), lo), hi), p, 0, 4, 4);
  }

  /** A sound run after a sound run is sound. */
  lemma ThenSound(g: GraphOpts, a: Run, b: Run)
    requires Sound(g, a.0) && Sound(g, b.0)
    ensures Sound(g, Then(a, b).0)
  {
    if a.1.None? {
      SoundConcat(g, a.0, b.0);
    }
  }

  /** Every figure trace names a configured trace, carries its key's number and sits on its axis. */
  lemma LayoutSound(g: GraphOpts)
    ensures Sound(g, Layout(g).0)
  {
    var e, m, p := PassFrom(g, ErrorPass, 0), PassFrom(g, MainPass, 0), PassFrom(g, PointPass, 0);
    var lo, hi := FromResult(LineStep(g, MinLine, g.showmin)), FromResult(LineStep(g, MaxLine, g.showmax));
    PassShape(g, ErrorPass, 0);
    PassShape(g, MainPass, 0);
    PassShape(g, PointPass, 0);
    LineShape(g, MinLine, g.showmin);
    LineShape(g, MaxLine, g.showmax);
    ThenSound(g, e, m);
    ThenSound(g, Then(e, m), lo);
    ThenSound(g, Then(Then(e, m), lo), hi);
    ThenSound(g, Then(Then(Then(e, m), lo), hi), p);
  }

  /** No two figure traces share a key. */
  predicate DistinctKeys(fs: seq<FigTrace>)
  {
    forall i, j :: 0 <= i < j < |fs| ==> Key(fs[i]) != Key(fs[j])
  }

  /**
   * Entering figure traces with distinct new keys gives each the id
   * "length before" plus its position, and keeps every earlier entry.
   */
  lemma {:induction false} ReplayPositions(ids: map<string, nat>, fs: seq<FigTrace>)
    requires DistinctKeys(fs) && forall i :: 0 <= i < |fs| ==> Key(fs[i]) !in ids
    ensures var r := Replay(ids, fs);
            |r| == |ids| + |fs| &&
            (forall i :: 0 <= i < |fs| ==> Key(fs[i]) in r && r[Key(fs[i])] == |ids| + i) &&
            (forall k :: k in ids ==> k in r && r[k] == ids[k])
    decreases |fs|
  {
    if |fs| > 0 {
      var ids' := Assign(ids, Key(fs[0]));
      forall i | 0 <= i < |fs| - 1
        ensures Key(fs[1..][i]) !in ids'
      {
        assert fs[1..][i] == fs[i + 1];
      }
      ReplayPositions(ids', fs[1..]);
      var r := Replay(ids', fs[1..]);
      forall i | 0 <= i < |fs|
        ensures Key(fs[i]) in r && r[Key(fs[i])] == |ids| + i
      {
        if i > 0 {
          assert fs[1..][i - 1] == fs[i];
        }
      }
    }
  }

  /**
   * Ids are positions: when `n2t[g]` starts empty, the passes run through and
   * no two figure traces share a key, the id entered for each figure trace is
   * its position in the figure, and there is nothing else in `n2t[g]`.
   */
  lemma IdsArePositions(g: GraphOpts)
    requires Layout(g).1.None? && DistinctKeys(Layout(g).0)
    ensures var fs := Layout(g).0;
            var ids := Replay(map[], fs);
            |ids| == |fs| && forall i :: 0 <= i < |fs| ==> Key(fs[i]) in ids && ids[Key(fs[i])] == i
  {
    ReplayPositions(map[], Layout(g).0);
  }

  /** `f"t{t}_..."` with a one-digit t: the key's second character is the digit. */
  lemma KeyDigit(f: FigTrace)
    requires f.nr < 10
    ensures Key(f) == ['t', ('0' as int + f.nr) as char] + Suffix(f.role)
  {
  }

  /** Different roles have different key suffixes. */
  lemma SuffixInjective(a: Role, b: Role)
    requires a != b
    ensures Suffix(a) != Suffix(b)
  {
    if |Suffix(a)| == |Suffix(b)| {
      assert Suffix(a)[1] != Suffix(b)[1] || Suffix(a)[2] != Suffix(b)[2];
    }
  }

  /** One-digit traces of different roles or numbers have different keys. */
  lemma KeysDiffer(a: FigTrace, b: FigTrace)
    requires a.nr < 10 && b.nr < 10 && (a.role != b.role || a.nr != b.nr)
    ensures Key(a) != Key(b)
  {
    KeyDigit(a);
    KeyDigit(b);
    if a.nr != b.nr {
      assert Key(a)[1] != Key(b)[1];
    } else {
      SuffixInjective(a.role, b.role);
      assert Key(a)[2..] == Suffix(a.role) && Key(b)[2..] == Suffix(b.role);
    }
  }

  /** Configured traces whose keys end in distinct digits. */
  predicate DistinctNumbers(g: GraphOpts)
  {
    forall j, k :: 0 <= j < k < |g.traces| && TraceNumber(g.traces[j].key).Ok? && TraceNumber(g.traces[k].key).Ok? ==>
      TraceNumber(g.traces[j].key).value != TraceNumber(g.traces[k].key).value
  }

  /** Traces in which two of the same role come from different configured traces. */
  predicate RoleDistinct(fs: seq<FigTrace>)
  {
    forall i, j :: 0 <= i < j < |fs| && fs[i].role == fs[j].role ==> fs[i].index != fs[j].index
  }

  /** A run of earlier stages and a role-distinct step of later stages make a role-distinct run. */
  lemma ThenDistinct(a: Run, b: Run, lo: nat, m: nat, hi: nat)
    requires RoleDistinct(a.0) && Stages(a.0, lo, m) && RoleDistinct(b.0) && Stages(b.0, m + 1, hi) && lo <= m < hi
    ensures RoleDistinct(Then(a, b).0) && Stages(Then(a, b).0, lo, hi)
  {
    if a.1.None? {
      var c := a.0 + b.0;
      forall i | 0 <= i < |c|
        ensures c[i] == if i < |a.0| then a.0[i] else b.0[i - |a.0|]
      {
      }
      forall i, j | 0 <= i < j < |c| && c[i].role == c[j].role
        ensures c[i].index != c[j].index
      {
        if i >= |a.0| {
          assert c[i] == b.0[i - |a.0|] && c[j] == b.0[j - |a.0|];
        } else if j < |a.0| {
          assert c[i] == a.0[i] && c[j] == a.0[j];
        }
      }
    }
  }

  /** Increasing traces are role-distinct. */
  lemma IncreasingDistinct(fs: seq<FigTrace>, k: nat)
    requires Increasing(fs, k)
    ensures RoleDistinct(fs)
  {
  }

  /** In the whole figure, two traces of the same role come from different configured traces. */
  lemma LayoutRolesDistinct(g: GraphOpts)
    ensures RoleDistinct(Layout(g).0)
  {
    var e, m, p := PassFrom(g, ErrorPass, 0), PassFrom(g, MainPass, 0), PassFrom(g, PointPass, 0);
    var lo, hi := FromResult(LineStep(g, MinLine, g.showmin)), FromResult(LineStep(g, MaxLine, g.showmax));
    PassShape(g, ErrorPass, 0);
    PassShape(g, MainPass, 0);
    PassShape(g, PointPass, 0);
    IncreasingDistinct(e.0, 0);
    IncreasingDistinct(m.0, 0);
    IncreasingDistinct(p.0, 0);
    LineShape(g, MinLine, g.showmin);
    LineShape(g, MaxLine, g.showmax);
    ThenDistinct(e, m, 0, 0, 1);
    ThenDistinct(Then(e, m), lo, 0, 1, 2);
    ThenDistinct(Then(Then(e, m), lo), hi, 0, 2, 3);
    ThenDistinct(Then(Then(Then(e, m), lo), hi), p, 0, 3, 4);
  }

  /** Two configured traces with numbers have different numbers. */
  lemma NumbersDiffer(g: GraphOpts, a: nat, b: nat)
    requires DistinctNumbers(g) && a < |g.traces| && b < |g.traces| && a != b
    requires TraceNumber(g.traces[a].key).Ok? && TraceNumber(g.traces[b].key).Ok?
    ensures TraceNumber(g.traces[a].key).value != TraceNumber(g.traces[b].key).value
  {
    if a > b {
      NumbersDiffer(g, b, a);
    }
  }

  /** Sound, role-distinct traces of configured traces with distinct numbers have distinct keys. */
  lemma DistinctKeysOf(g: GraphOpts, fs: seq<FigTrace>)
    requires Sound(g, fs) && RoleDistinct(fs) && DistinctNumbers(g)
    ensures DistinctKeys(fs)
  {
    forall i, j | 0 <= i < j < |fs|
      ensures Key(fs[i]) != Key(fs[j])
    {
      if fs[i].role == fs[j].role {
        NumbersDiffer(g, fs[i].index, fs[j].index);
      }
      KeysDiffer(fs[i], fs[j]);
    }
  }

  /**
   * With keys ending in distinct digits (trace1 .. trace9), a run through all
   * passes leaves every id equal to its trace's position in the figure.
   */
  lemma NumberedIdsArePositions(g: GraphOpts)
    requires Layout(g).1.None? && DistinctNumbers(g)
    ensures var fs := Layout(g).0;
            var ids := Replay(map[], fs);
            |ids| == |fs| && forall i :: 0 <= i < |fs| ==> Key(fs[i]) in ids && ids[Key(fs[i])] == i
  {
    LayoutSound(g);
    LayoutRolesDistinct(g);
    DistinctKeysOf(g, Layout(g).0);
    IdsArePositions(g);
  }

  /** A pass that runs through from trace k adds what each later trace's step adds. */
  lemma {:induction false} PassIncludes(g: GraphOpts, pass: Pass, k: nat, j: nat)
    requires k <= j < |g.traces| && PassFrom(g, pass, k).1.None?
    ensures PassStep(g, pass, j).Ok? && forall f :: f in PassStep(g, pass, j).value ==> f in PassFrom(g, pass, k).0
    decreases j - k
  {
    var s := PassStep(g, pass, k);
    assert s.Ok?;
    var rest := PassFrom(g, pass, k + 1);
    assert PassFrom(g, pass, k).0 == s.value + rest.0;
    if j > k {
      PassIncludes(g, pass, k + 1, j);
    }
  }

  /** A run through all passes is the five parts one after the other, none of them raising. */
  lemma LayoutParts(g: GraphOpts)
    requires Layout(g).1.None?
    ensures PassFrom(g, ErrorPass, 0).1.None? && PassFrom(g, MainPass, 0).1.None? && PassFrom(g, PointPass, 0).1.None?
    ensures LineStep(g, MinLine, g.showmin).Ok? && LineStep(g, MaxLine, g.showmax).Ok?
    ensures Layout(g).0 == PassFrom(g, ErrorPass, 0).0 + PassFrom(g, MainPass, 0).0 +
              LineStep(g, MinLine, g.showmin).value + LineStep(g, MaxLine, g.showmax).value + PassFrom(g, PointPass, 0).0
  {
  }

  /**
   * In a run through all passes every configured trace has its main line,
   * its lo and hi bands when `E` is not False, and its end point when `P` is
   * not False (with `Sound`, these are the only bands and end points).
   */
  lemma LayoutIncludes(g: GraphOpts, k: nat)
    requires Layout(g).1.None? && k < |g.traces|
    ensures TraceNumber(g.traces[k].key).Ok?
    ensures var fs, t := Layout(g).0, g.traces[k];
            var nr, sec := TraceNumber(t.key).value, OnSecondary(g, t);
            FigTrace(Main, nr, k, sec) in fs &&
            (!IsFalse(t.E) ==> FigTrace(Lo, nr, k, sec) in fs && FigTrace(Hi, nr, k, sec) in fs) &&
            (!IsFalse(t.P) ==> FigTrace(Point, nr, k, sec) in fs)
  {
    LayoutParts(g);
    PassIncludes(g, ErrorPass, 0, k);
    PassIncludes(g, MainPass, 0, k);
    PassIncludes(g, PointPass, 0, k);
  }

  /** Two traces whose keys both end in 1, with end points and no bands. */
  const CollidingGraph := GraphOpts([TraceOpts("trace1", "primary", PyBool(false), PyBool(true)),
                                     TraceOpts("trace11", "primary", PyBool(false), PyBool(true))],
                                    false, PyBool(false), PyBool(false), PyStr("loss"), PyBool(false))

  const CollidingFigure := [FigTrace(Main, 1, 0, false), FigTrace(Main, 1, 1, false),
                            FigTrace(Point, 1, 0, false), FigTrace(Point, 1, 1, false)]

  /** One step of a pass that does not raise. */
  lemma PassFromStep(g: GraphOpts, pass: Pass, k: nat, made: seq<FigTrace>)
    requires k < |g.traces| && PassStep(g, pass, k) == Ok(made)
    ensures PassFrom(g, pass, k) == (made + PassFrom(g, pass, k + 1).0, PassFrom(g, pass, k + 1).1)
  {
  }

  /** Each pass over the colliding graph adds, per trace, its end point or main line, and no band. */
  lemma CollidingSteps()
    ensures PassStep(CollidingGraph, ErrorPass, 0) == Ok([]) && PassStep(CollidingGraph, ErrorPass, 1) == Ok([])
    ensures PassStep(CollidingGraph, MainPass, 0) == Ok([CollidingFigure[0]])
    ensures PassStep(CollidingGraph, MainPass, 1) == Ok([CollidingFigure[1]])
    ensures PassStep(CollidingGraph, PointPass, 0) == Ok([CollidingFigure[2]])
    ensures PassStep(CollidingGraph, PointPass, 1) == Ok([CollidingFigure[3]])
  {
    assert TraceNumber("trace1") == Ok(1) && TraceNumber("trace11") == Ok(1);
  }

  lemma CollidingLayout()
    ensures Layout(CollidingGraph) == (CollidingFigure, None)
  {
    var g, fs := CollidingGraph, CollidingFigure;
    assert |g.traces| == 2;
    CollidingSteps();
    PassFromStep(g, ErrorPass, 0, []);
    PassFromStep(g, ErrorPass, 1, []);
    PassFromStep(g, MainPass, 0, [fs[0]]);
    PassFromStep(g, MainPass, 1, [fs[1]]);
    PassFromStep(g, PointPass, 0, [fs[2]]);
    PassFromStep(g, PointPass, 1, [fs[3]]);
    assert PassFrom(g, ErrorPass, 2) == ([], None) && PassFrom(g, MainPass, 2) == ([], None) && PassFrom(g, PointPass, 2) == ([], None);
    assert LineStep(g, MinLine, g.showmin) == Ok([]) && LineStep(g, MaxLine, g.showmax) == Ok([]);
    assert [fs[1]] + [] == [fs[1]] && [fs[3]] + [] == [fs[3]];
    assert PassFrom(g, MainPass, 1) == ([fs[1]], None) && PassFrom(g, PointPass, 1) == ([fs[3]], None);
    assert [fs[0]] + [fs[1]] == [fs[0], fs[1]] && [fs[2]] + [fs[3]] == [fs[2], fs[3]];
    var none: seq<FigTrace> := [];
    assert none + none == none;
    assert PassFrom(g, ErrorPass, 1) == (none, None);
    var e, m, p := PassFrom(g, ErrorPass, 0), PassFrom(g, MainPass, 0), PassFrom(g, PointPass, 0);
    assert e == ([], None);
    assert m == ([fs[0]] + [fs[1]], None);
    assert p == ([fs[2]] + [fs[3]], None);
    assert FromResult(LineStep(g, MinLine, g.showmin)) == ([], None);
    assert FromResult(LineStep(g, MaxLine, g.showmax)) == ([], None);
    assert fs == [] + [fs[0], fs[1]] + [] + [] + [fs[2], fs[3]];
  }

  /** Replaying one figure trace is one assignment. */
  lemma ReplayOne(ids: map<string, nat>, f: FigTrace, key: string, rest: seq<FigTrace>)
    requires Key(f) == key
    ensures Replay(ids, [f] + rest) == Replay(Assign(ids, key), rest)
  {
    assert ([f] + rest)[1..] == rest;
  }

  lemma CollidingKeys()
    ensures Key(CollidingFigure[0]) == "t1_main" && Key(CollidingFigure[1]) == "t1_main"
    ensures Key(CollidingFigure[2]) == "t1_point" && Key(CollidingFigure[3]) == "t1_point"
  {
    assert IntText(1) == "1";
  }

  lemma CollidingReplay()
    ensures var r := Replay(map[], CollidingFigure);
            |r| == 2 && "t1_point" in r && r["t1_point"] == 2
  {
    var fs := CollidingFigure;
    CollidingKeys();
    var m1 := map[]["t1_main" := 0];
    var m2 := m1["t1_main" := 1];
    var m3 := m2["t1_point" := 1];
    var m4 := m3["t1_point" := 2];
    assert "t1_point" != "t1_main";
    assert |m1| == 1 && |m2| == 1 && m2.Keys == {"t1_main"};
    assert |m3| == 2;
    ReplayOne(map[], fs[0], "t1_main", fs[1..]);
    ReplayOne(m1, fs[1], "t1_main", fs[2..]);
    ReplayOne(m2, fs[2], "t1_point", fs[3..]);
    ReplayOne(m3, fs[3], "t1_point", []);
    assert fs == [fs[0]] + fs[1..] && fs[1..] == [fs[1]] + fs[2..] && fs[2..] == [fs[2]] + fs[3..] && fs[3..] == [fs[3]] + [];
    assert Replay(map[], fs) == m4;
    assert m4.Keys == {"t1_main", "t1_point"};
  }

  /**
   * Keys collide when two trace keys end in the same digit ("trace1" and
   * "trace11"): the second main line and end point overwrite the first ones'
   * entries with the dictionary's unchanged length, so the later end point's
   * id is 2 while it is the figure's fourth trace (position 3).
   */
  lemma CollidingKeysShiftIds()
    ensures Layout(CollidingGraph).1.None?
    ensures var fs := Layout(CollidingGraph).0;
            |fs| == 4 && Key(fs[3]) == "t1_point" && "t1_point" in Replay(map[], fs) && Replay(map[], fs)["t1_point"] == 2
  {
    CollidingLayout();
    CollidingReplay();
    CollidingKeys();
  }
}
