/**
 * The frozen configuration records of the dashboard: one record per trace, one
 * per graph, and the three-graph configuration. Being datatypes, none of them
 * can change after construction.
 */
module SetupConfig {
  import opened Py

  /** `TraceConfig`: legend name, colour string, y axis, error band, endpoint marker, line shape. */
  datatype TraceConfig = TraceConfig(name: string, color: string, yaxis: string, errors: bool, point: bool, shape: string)

  /** `TraceConfig(name, color)` with every other field at its default. */
  function NewTraceConfig(name: string, color: string): (t: TraceConfig)
    ensures t.name == name && t.color == color
    ensures t.yaxis == "primary" && !t.errors && t.point && t.shape == "spline"
  {
    TraceConfig(name, color, "primary", false, true, "spline")
  }

  /**
   * `GraphConfig`: the traces, the card title, the x extent, the downsampling
   * resolution (False or a count), the traces whose minimum and maximum are
   * marked (False or a trace designation) and the three axis labels.
   */
  datatype GraphConfig = GraphConfig(
    traces: seq<TraceConfig>,
    title: string,
    totalx: int,
    nxdown: PyVal,
    showmax: PyVal,
    showmin: PyVal,
    xlabel: PyVal,
    ylabel1: PyVal,
    ylabel2: PyVal)

  /** `GraphConfig(traces, title, totalx)` with every other field at its default. */
  function NewGraphConfig(traces: seq<TraceConfig>, title: string, totalx: int): (g: GraphConfig)
    ensures g.traces == traces && g.title == title && g.totalx == totalx
    ensures IsFalse(g.nxdown) && IsFalse(g.showmax) && IsFalse(g.showmin)
    ensures IsFalse(g.xlabel) && IsFalse(g.ylabel1) && IsFalse(g.ylabel2)
  {
    GraphConfig(traces, title, totalx, PyBool(false), PyBool(false), PyBool(false), PyBool(false), PyBool(false), PyBool(false))
  }

  /** `any(tr.yaxis == "secondary" for tr in ts)`. */
  function AnySecondary(ts: seq<TraceConfig>): (b: bool)
    ensures b <==> exists i :: 0 <= i < |ts| && ts[i].yaxis == "secondary"
  {
    if |ts| == 0 then false
    else if ts[0].yaxis == "secondary" then true
    else
      var rest := AnySecondary(ts[1..]);
      assert forall i :: 1 <= i < |ts| ==> ts[i] == ts[1..][i - 1];
      rest
  }

  /** `has_subplots`: some trace of the graph is drawn on the secondary y axis. */
  function HasSubplots(g: GraphConfig): (b: bool)
    ensures b <==> exists i :: 0 <= i < |g.traces| && g.traces[i].yaxis == "secondary"
  {
    AnySecondary(g.traces)
  }

  /** Only the exact text "secondary" selects the second axis; any other text counts as primary. */
  lemma HasSubplotsNeedsSecondary(g: GraphConfig)
    requires forall i :: 0 <= i < |g.traces| ==> g.traces[i].yaxis == "primary"
    ensures !HasSubplots(g)
  {
  }

  /** The configuration of the setup-config unit test: only graph 1 needs subplots. */
  function TestConfig(): Config
  {
    Config(
      NewGraphConfig([NewTraceConfig("g1 t1", "red"), NewTraceConfig("g1 t2", "green").(yaxis := "secondary")], "graph 1 title", 10000),
      NewGraphConfig([NewTraceConfig("g2 t1", "red"), NewTraceConfig("g2 t2", "green")], "graph 2 title", 10000),
      NewGraphConfig([NewTraceConfig("g3 t1", "red"), NewTraceConfig("g3 t2", "green")], "graph 3 title", 10000))
  }

  lemma TestConfigSubplots()
    ensures HasSubplots(TestConfig().graph1)
    ensures !HasSubplots(TestConfig().graph2) && !HasSubplots(TestConfig().graph3)
  {
    var g1 := TestConfig().graph1;
    assert g1.traces[1].yaxis == "secondary";
  }

  /** `TraceConfig._sanitize`: not implemented yet. */
  function SanitizeTrace(t: TraceConfig): (r: Result<()>)
    ensures r == Err(NotImplementedError)
  {
    Err(NotImplementedError)
  }

  /** `GraphConfig._sanitize`: not implemented yet. */
  function SanitizeGraph(g: GraphConfig): (r: Result<()>)
    ensures r == Err(NotImplementedError)
  {
    Err(NotImplementedError)
  }

  /** `Config`: the three graphs of the dashboard. */
  datatype Config = Config(graph1: GraphConfig, graph2: GraphConfig, graph3: GraphConfig)

  /** `Config.sanitize`: its body is `...`, so it returns None and checks nothing. */
  function SanitizeConfig(c: Config): (r: Result<()>)
    ensures r == Ok(())
  {
    Ok(())
  }
}
