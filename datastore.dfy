/**
 * The mutable stores the producer writes and the refresh cycle reads: per-trace
 * sample buffers with running extrema and one-shot change flags, the
 * processing-speed timer state, and the three-graph container.
 */
module DataStore {
  import opened Py

  /** Capacity of the processing-speed deque. */
  const SpeedCap: nat := 10

  /** The state of one trace's buffers as a value. */
  datatype TraceData = TraceData(
    x: seq<real>,
    y: seq<real>,
    ymin: Ext,
    ymax: Ext,
    ynewmin: bool,
    ynewmax: bool,
    ylo: Option<seq<real>>,
    yhi: Option<seq<real>>,
    xdown: Option<seq<real>>)

  /** A trace before its first sample: no data, extrema at the infinities, flags down, no bands, no grid. */
  const EmptyTrace := TraceData([], [], PosInf, NegInf, false, false, None, None, None)

  /**
   * The extrema never take the infinity they do not start at: ymin is only ever
   * lowered from +inf to a sample and ymax only raised from -inf to one.
   */
  predicate ExtremaSane(d: TraceData)
  {
    d.ymin != NegInf && d.ymax != PosInf
  }

  /** `TraceStore`: one trace's buffers, updated in place. */
  class TraceStore {
    var x: seq<real>
    var y: seq<real>
    var ymin: Ext
    var ymax: Ext
    var ynewmin: bool
    var ynewmax: bool
    var ylo: Option<seq<real>>
    var yhi: Option<seq<real>>
    var xdown: Option<seq<real>>

    constructor ()
      ensures Data() == EmptyTrace
    {
      x, y := [], [];
      ymin, ymax := PosInf, NegInf;
      ynewmin, ynewmax := false, false;
      ylo, yhi, xdown := None, None, None;
    }

    function Data(): TraceData
      reads this
    {
      TraceData(x, y, ymin, ymax, ynewmin, ynewmax, ylo, yhi, xdown)
    }

    /**
     * `add_xdown(totalx, nxdown)`: the grid becomes `linspace(0, totalx, nxdown)`;
     * a negative count raises ValueError and leaves the store as it was.
     */
    method AddXdown(totalx: int, nxdown: int) returns (r: Result<()>)
      modifies this
      ensures r.Ok? <==> nxdown >= 0
      ensures r.Ok? ==> Data() == old(Data()).(xdown := Some(Linspace(0.0, totalx as real, nxdown).value))
      ensures r.Err? ==> r.error == ValueError && Data() == old(Data())
    {
      var g := Linspace(0.0, totalx as real, nxdown);
      if g.Err? {
        return Err(g.error);
      }
      xdown := Some(g.value);
      r := Ok(());
    }

    /** `add_errorband`: both band lists become fresh empty lists, whatever they held. */
    method AddErrorband()
      modifies this
      ensures Data() == old(Data()).(ylo := Some([]), yhi := Some([]))
    {
      ylo := Some([]);
      yhi := Some([]);
    }
  }

  /** The grid `add_xdown` installs has the requested size and spans [0, totalx] evenly. */
  lemma XdownGrid(totalx: int, nxdown: int)
    requires 0 <= totalx && 2 <= nxdown
    ensures var g := Linspace(0.0, totalx as real, nxdown).value;
            |g| == nxdown && g[0] == 0.0 && g[nxdown - 1] == totalx as real &&
            (forall k :: 0 <= k < |g| - 1 ==> g[k] <= g[k + 1]) &&
            (forall k :: 0 <= k < |g| ==> 0.0 <= g[k] <= totalx as real)
  {
    LinspaceAscending(0.0, totalx as real, nxdown);
  }

  /** `ProcsStore`: the last rates in a deque of at most `SpeedCap` entries, and the two timestamps. */
  class ProcsStore {
    var speed: seq<real>
    var t0: Option<real>
    var t1: Option<real>

    constructor ()
      ensures speed == [] && t0 == None && t1 == None
    {
      speed := [];
      t0, t1 := None, None;
    }
  }

  /** `GraphStore`: the stores of one graph's traces. */
  class GraphStore {
    var traces: seq<TraceStore>

    constructor ()
      ensures traces == []
    {
      traces := [];
    }
  }

  const DefaultSummary := "no information available"

  /** `DataStore`: three independent graph stores, the speed store and the model summary text. */
  class Store {
    var graph1: GraphStore
    var graph2: GraphStore
    var graph3: GraphStore
    var procs: ProcsStore
    var msummary: string

    constructor ()
      ensures fresh(graph1) && fresh(graph2) && fresh(graph3) && fresh(procs)
      ensures graph1 != graph2 && graph2 != graph3 && graph1 != graph3
      ensures graph1.traces == [] && graph2.traces == [] && graph3.traces == []
      ensures procs.speed == [] && procs.t0 == None && procs.t1 == None
      ensures msummary == DefaultSummary
    {
      graph1 := new GraphStore();
      graph2 := new GraphStore();
      graph3 := new GraphStore();
      procs := new ProcsStore();
      msummary := DefaultSummary;
    }
  }
}
