/**
 * The first generation of `DashPlotter`: the same subplot flags, dictionary
 * store and sample update as the current one, but no processing-speed state,
 * no model summary and a `batchtimer` that does nothing.
 */
module LegacyPlotter {
  import opened Py
  import opened DataStore
  import opened PlotterCore

  class DashPlotter {
    var options: seq<GraphOpts>
    var subplots: seq<bool>
    var buffers: Buffers
    var n2t: map<string, map<string, nat>>

    constructor FromParts(opts: seq<GraphOpts>, flags: seq<bool>, b: Buffers)
      ensures options == opts && subplots == flags && buffers == b
      ensures n2t == map["g1" := map[], "g2" := map[], "g3" := map[]]
    {
      options, subplots, buffers := opts, flags, b;
      n2t := map["g1" := map[], "g2" := map[], "g3" := map[]];
    }

    /**
     * `DashPlotter(setup_options)`: subplot flags per graph, the store of
     * `_make_store` (whose exception the constructor passes on) and three empty
     * trace maps.
     */
    static method Create(opts: seq<GraphOpts>) returns (r: Result<DashPlotter>)
      ensures r.Err? <==> InitialBuffers(opts).Err?
      ensures r.Ok? ==> (fresh(r.value) &&
                r.value.options == opts && r.value.buffers == InitialBuffers(opts).value &&
                |r.value.subplots| == |opts| &&
                (forall g :: 0 <= g < |opts| ==> (r.value.subplots[g] <==> UsesSecondary(opts[g]))) &&
                r.value.n2t == map["g1" := map[], "g2" := map[], "g3" := map[]])
    {
      var flags := SubplotFlags(opts);
      var b := MakeBuffers(opts);
      if b.Err? {
        return Err(b.error);
      }
      var p := new DashPlotter.FromParts(opts, flags, b.value);
      r := Ok(p);
    }

    /** `add_data(graph, trace, x, y, yStdLo, yStdHi)`: the store changes as `StoreAdd` says; nothing else does. */
    method AddData(graph: int, trace: int, x: real, y: real, lo: Option<real>, hi: Option<real>) returns (r: Result<()>)
      modifies this
      ensures (r, buffers) == StoreAdd(old(buffers), graph, trace, x, y, lo, hi)
      ensures options == old(options) && subplots == old(subplots) && n2t == old(n2t)
    {
      if graph !in buffers || trace !in buffers[graph] {
        return Err(KeyError);
      }
      var (res, d') := AddSample(buffers[graph][trace], x, y, lo, hi);
      buffers := buffers[graph := buffers[graph][trace := d']];
      r := res;
    }

    /** `batchtimer()`: a stub whose body is `...`; it returns None and changes nothing. */
    method Batchtimer() returns (r: Option<real>)
      ensures r == None
    {
      r := None;
    }
  }
}
