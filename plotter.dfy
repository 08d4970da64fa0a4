/**
 * The producer-side facade `DashPlotter`: it derives the subplot flags, builds
 * the dictionary store, appends samples with running extrema, and times batches
 * into a bounded deque of processing rates.
 */
module Plotter {
  import opened Py
  import opened DataStore
  import opened PlotterCore

  /** The summary text when no model summary is available. */
  const NoSummary := "no information available!"

  /** `deque.append` on a deque with `maxlen = SpeedCap`: a full deque drops its oldest entry. */
  function Push(s: seq<real>, v: real): (r: seq<real>)
    requires |s| <= SpeedCap
  {
    if |s| == SpeedCap then s[1..] + [v] else s + [v]
  }

  /** The deque keeps the last min(n + 1, 10) values of the stream, the new one last. */
  lemma PushKeepsNewest(s: seq<real>, v: real)
    requires |s| <= SpeedCap
    ensures var r := Push(s, v);
            |r| == (if |s| + 1 < SpeedCap then |s| + 1 else SpeedCap) && |r| <= SpeedCap &&
            r[|r| - 1] == v && r == (s + [v])[|s| + 1 - |r|..]
  {
  }

  /** `batchtimer("read")`: 0 with no timings, else the mean rate, which lies between the extreme rates. */
  function ReadSpeed(s: seq<real>): (m: real)
    ensures |s| == 0 ==> m == 0.0
    ensures |s| > 0 ==> Min(s) <= m <= Max(s)
  {
    if |s| == 0 then 0.0 else Mean(s)
  }

  /** A window of three rates 100, 200 and 300 reads as 200. */
  lemma ReadSpeedExample()
    ensures ReadSpeed([100.0, 200.0, 300.0]) == 200.0
  {
    var s := [100.0, 200.0, 300.0];
    assert s[..2] == [100.0, 200.0] && s[..2][..1] == [100.0] && s[..2][..1][..0] == [];
    assert Sum([100.0]) == 100.0;
    assert Sum([100.0, 200.0]) == 300.0;
    assert Sum(s) == 600.0;
  }

  class DashPlotter {
    var options: seq<GraphOpts>
    var subplots: seq<bool>
    var buffers: Buffers
    var speed: seq<real>
    var t0: Option<real>
    var t1: Option<real>
    var summary: string
    var n2t: map<string, map<string, nat>>

    /** The deque never holds more than `SpeedCap` rates. */
    ghost predicate Valid()
      reads this
    {
      |speed| <= SpeedCap
    }

    constructor FromParts(opts: seq<GraphOpts>, flags: seq<bool>, b: Buffers, text: string)
      ensures options == opts && subplots == flags && buffers == b && summary == text
      ensures speed == [] && t0 == None && t1 == None
      ensures n2t == map["g1" := map[], "g2" := map[], "g3" := map[]]
      ensures Valid()
    {
      options, subplots, buffers, summary := opts, flags, b, text;
      speed, t0, t1 := [], None, None;
      n2t := map["g1" := map[], "g2" := map[], "g3" := map[]];
    }

    /**
     * `DashPlotter(setup_options, model, input_data)`: subplot flags per graph, the
     * store of `_make_store` (whose exception the constructor passes on), an
     * empty speed deque, and the summary text (the model summary when one is
     * given).
     */
    static method Create(opts: seq<GraphOpts>, modelSummary: Option<string>) returns (r: Result<DashPlotter>)
      ensures r.Err? <==> InitialBuffers(opts).Err?
      ensures r.Ok? ==> (fresh(r.value) && r.value.Valid() &&
                r.value.options == opts && r.value.buffers == InitialBuffers(opts).value &&
                |r.value.subplots| == |opts| &&
                (forall g :: 0 <= g < |opts| ==> (r.value.subplots[g] <==> UsesSecondary(opts[g]))) &&
                r.value.speed == [] && r.value.t0 == None && r.value.t1 == None &&
                r.value.n2t == map["g1" := map[], "g2" := map[], "g3" := map[]] &&
                r.value.summary == (if modelSummary.Some? then modelSummary.value else NoSummary))
    {
      var flags := SubplotFlags(opts);
      var b := MakeBuffers(opts);
      if b.Err? {
        return Err(b.error);
      }
      var text := if modelSummary.Some? then modelSummary.value else NoSummary;
      var p := new DashPlotter.FromParts(opts, flags, b.value, text);
      r := Ok(p);
    }

    /**
     * `add_data(graph, trace, x, y, yStdLo, yStdHi)`: the store changes as
     * `StoreAdd` says; nothing else does.
     */
    method AddData(graph: int, trace: int, x: real, y: real, lo: Option<real>, hi: Option<real>) returns (r: Result<()>)
      modifies this
      ensures (r, buffers) == StoreAdd(old(buffers), graph, trace, x, y, lo, hi)
      ensures options == old(options) && subplots == old(subplots) && summary == old(summary) && n2t == old(n2t)
      ensures speed == old(speed) && t0 == old(t0) && t1 == old(t1)
    {
      if graph !in buffers || trace !in buffers[graph] {
        return Err(KeyError);
      }
      var d := buffers[graph][trace];
      var (res, d') := AddSample(d, x, y, lo, hi);
      buffers := buffers[graph := buffers[graph][trace := d']];
      r := res;
    }

    /**
     * `batchtimer(action, batch_size)` with `now` standing for `time.perf_counter()`.
     * `start` records t0 and clears t1. `stop` records t1 first, then raises
     * ValueError without t0, when t0 >= t1 or without a batch size; otherwise
     * pushes `batch_size / (t1 - t0)` and clears both. `read` returns
     * `ReadSpeed`. Any other action raises ValueError and changes nothing.
     */
    method Batchtimer(action: string, batchSize: Option<int>, now: real) returns (r: Result<Option<real>>)
      requires Valid()
      modifies this
      ensures Valid()
      ensures options == old(options) && subplots == old(subplots) && buffers == old(buffers)
      ensures summary == old(summary) && n2t == old(n2t)
      ensures action != "start" && action != "stop" && action != "read" ==>
                r == Err(ValueError) && speed == old(speed) && t0 == old(t0) && t1 == old(t1)
      ensures action == "start" ==> r == Ok(None) && speed == old(speed) && t0 == Some(now) && t1 == None
      ensures action == "stop" ==>
                if old(t0).None? || old(t0).value >= now || batchSize.None? then
                  r == Err(ValueError) && speed == old(speed) && t0 == old(t0) && t1 == Some(now)
                else
                  r == Ok(None) && t0 == None && t1 == None &&
                  speed == Push(old(speed), batchSize.value as real / (now - old(t0).value))
      ensures action == "read" ==>
                r == Ok(Some(ReadSpeed(old(speed)))) && speed == old(speed) && t0 == old(t0) && t1 == old(t1)
    {
      if action != "start" && action != "stop" && action != "read" {
        return Err(ValueError);
      }
      r := Ok(None);
      if action == "start" {
        t0 := Some(now);
        t1 := None;
      }
      if action == "stop" {
        t1 := Some(now);
        if t0.None? {
          return Err(ValueError);
        }
        if t0.value >= t1.value {
          return Err(ValueError);
        }
        if batchSize.None? {
          return Err(ValueError);
        }
        speed := Push(speed, batchSize.value as real / (t1.value - t0.value));
        t0 := None;
        t1 := None;
      }
      if action == "read" {
        r := Ok(Some(ReadSpeed(speed)));
      }
    }
  }
}
