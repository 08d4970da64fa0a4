/**
 * The positional id registry: each graph owns one counter, and each trace of the
 * graph records, per role, the id the counter handed out when that role's
 * figure object was added.
 */
module Name2Id {
  import opened Py

  /** The role names a trace can register. */
  datatype Role = Main | MinLine | MaxLine | Lo | Hi | Point

  /** The six role fields of one trace, None while unregistered. */
  datatype RoleIds = RoleIds(main: Option<nat>, minline: Option<nat>, maxline: Option<nat>,
                             lo: Option<nat>, hi: Option<nat>, point: Option<nat>)
  {
    function Get(role: Role): Option<nat>
    {
      match role
      case Main => main
      case MinLine => minline
      case MaxLine => maxline
      case Lo => lo
      case Hi => hi
      case Point => point
    }

    /** The same record with one role set to v. */
    function With(role: Role, v: Option<nat>): (r: RoleIds)
      ensures r.Get(role) == v
      ensures forall other :: other != role ==> r.Get(other) == Get(other)
    {
      match role
      case Main => this.(main := v)
      case MinLine => this.(minline := v)
      case MaxLine => this.(maxline := v)
      case Lo => this.(lo := v)
      case Hi => this.(hi := v)
      case Point => this.(point := v)
    }
  }

  const NoIds := RoleIds(None, None, None, None, None, None)

  /** `GraphN2Id`: the traces of one graph and the counter they draw ids from. */
  class GraphN2Id {
    var traces: seq<TraceN2Id>
    var counter: nat

    constructor ()
      ensures traces == [] && counter == 0
    {
      traces := [];
      counter := 0;
    }

    /** The role ids of every trace, in list order. */
    function Snapshot(): (ids: seq<RoleIds>)
      reads this, traces
      ensures |ids| == |traces| && forall i :: 0 <= i < |traces| ==> ids[i] == traces[i].Ids()
    {
      seq(|traces|, i reads this, traces requires 0 <= i < |traces| => traces[i].Ids())
    }

    /** `_get_new_id`: returns the current counter, then advances it by one. */
    method GetNewId() returns (id: nat)
      modifies this
      ensures id == old(counter) && counter == old(counter) + 1
      ensures traces == old(traces)
    {
      id := counter;
      counter := counter + 1;
    }
  }

  /** `TraceN2Id`: the role ids of one trace and the graph it draws them from. */
  class TraceN2Id {
    var main: Option<nat>
    var minline: Option<nat>
    var maxline: Option<nat>
    var lo: Option<nat>
    var hi: Option<nat>
    var point: Option<nat>
    var parent: GraphN2Id?

    constructor ()
      ensures Ids() == NoIds && parent == null
    {
      main, minline, maxline, lo, hi, point := None, None, None, None, None, None;
      parent := null;
    }

    function Ids(): RoleIds
      reads this
    {
      RoleIds(main, minline, maxline, lo, hi, point)
    }

    /** `_register_parent`: attaches the trace to a graph and returns the trace itself. */
    method RegisterParent(p: GraphN2Id) returns (self: TraceN2Id)
      modifies this
      ensures self == this && parent == p && Ids() == old(Ids())
    {
      parent := p;
      self := this;
    }

    /**
     * `register(attr)`: ValueError when the role is already set, leaving the ids and
     * the counter alone; otherwise the role takes the parent's next id. A trace
     * with no parent fails with AttributeError when it asks for an id.
     */
    method Register(role: Role) returns (r: Result<()>)
      modifies this, parent
      ensures parent == old(parent)
      ensures parent != null ==> parent.traces == old(parent.traces)
      ensures old(Ids().Get(role)).Some? ==>
                r == Err(ValueError) && Ids() == old(Ids()) && (parent != null ==> parent.counter == old(parent.counter))
      ensures old(Ids().Get(role)).None? && parent == null ==> r == Err(AttributeError) && Ids() == old(Ids())
      ensures old(Ids().Get(role)).None? && parent != null ==>
                r == Ok(()) && parent.counter == old(parent.counter) + 1 &&
                Ids() == old(Ids()).With(role, Some(old(parent.counter)))
    {
      if Ids().Get(role).Some? {
        return Err(ValueError);
      }
      if parent == null {
        return Err(AttributeError);
      }
      ghost var before := Ids();
      var id := parent.GetNewId();
      match role {
        case Main => main := Some(id);
        case MinLine => minline := Some(id);
        case MaxLine => maxline := Some(id);
        case Lo => lo := Some(id);
        case Hi => hi := Some(id);
        case Point => point := Some(id);
      }
      assert Ids() == before.With(role, Some(id));
      r := Ok(());
    }
  }

  /**
   * Every id held by some trace is below the counter and held by exactly one
   * (trace, role) pair.
   */
  ghost predicate ValidIds(ids: seq<RoleIds>, counter: nat)
  {
    (forall i, role :: 0 <= i < |ids| && ids[i].Get(role).Some? ==> ids[i].Get(role).value < counter) &&
    (forall i, j, r1, r2 ::
       (0 <= i < |ids| && 0 <= j < |ids| && (i != j || r1 != r2) &&
        ids[i].Get(r1).Some? && ids[j].Get(r2).Some?) ==>
       ids[i].Get(r1) != ids[j].Get(r2))
  }

  /** Handing the counter's value to an unset role and advancing the counter keeps ids unique. */
  lemma RegisterKeepsUnique(ids: seq<RoleIds>, counter: nat, k: nat, role: Role)
    requires ValidIds(ids, counter) && k < |ids| && ids[k].Get(role).None?
    ensures ValidIds(ids[k := ids[k].With(role, Some(counter))], counter + 1)
  {
    var ids' := ids[k := ids[k].With(role, Some(counter))];
    forall i, r1 | 0 <= i < |ids'| && ids'[i].Get(r1).Some?
      ensures ids'[i].Get(r1).value < counter + 1
    {
      if !(i == k && r1 == role) {
        assert ids'[i].Get(r1) == ids[i].Get(r1);
      }
    }
    forall i, j, r1, r2 | 0 <= i < |ids'| && 0 <= j < |ids'| && (i != j || r1 != r2) &&
        ids'[i].Get(r1).Some? && ids'[j].Get(r2).Some?
      ensures ids'[i].Get(r1) != ids'[j].Get(r2)
    {
      if !(i == k && r1 == role) {
        assert ids'[i].Get(r1) == ids[i].Get(r1);
      }
      if !(j == k && r2 == role) {
        assert ids'[j].Get(r2) == ids[j].Get(r2);
      }
    }
  }

  /** `MapN2Id`: one registry per graph of the dashboard. */
  class MapN2Id {
    var graph1: GraphN2Id
    var graph2: GraphN2Id
    var graph3: GraphN2Id

    constructor ()
      ensures fresh(graph1) && fresh(graph2) && fresh(graph3)
      ensures graph1 != graph2 && graph2 != graph3 && graph1 != graph3
      ensures graph1.counter == 0 && graph2.counter == 0 && graph3.counter == 0
      ensures graph1.traces == [] && graph2.traces == [] && graph3.traces == []
    {
      graph1 := new GraphN2Id();
      graph2 := new GraphN2Id();
      graph3 := new GraphN2Id();
    }
  }

  /** Two fresh traces, each registered with graph g, become g's trace list. */
  method AttachPair(g: GraphN2Id) returns (a: TraceN2Id, b: TraceN2Id)
    modifies g
    ensures fresh(a) && fresh(b) && g.traces == [a, b] && g.counter == old(g.counter)
    ensures a.parent == g && b.parent == g && a.Ids() == NoIds && b.Ids() == NoIds
  {
    a := new TraceN2Id();
    b := new TraceN2Id();
    var a' := a.RegisterParent(g);
    var b' := b.RegisterParent(g);
    g.traces := [a', b'];
  }

  /**
   * The registry unit test: two traces per graph, `main` then `point` registered on
   * the first trace of graph 1. `main` gets 0, `point` 1, `hi` stays unset, the
   * counter ends at 2 and registering `main` again raises ValueError.
   */
  method UnitTestScenario() returns (counter0: nat, mainId: Option<nat>, pointId: Option<nat>, hiId: Option<nat>,
                                     counter1: nat, again: Result<()>)
    ensures counter0 == 0 && mainId == Some(0) && pointId == Some(1) && hiId == None
    ensures counter1 == 2 && again == Err(ValueError)
  {
    var m := new MapN2Id();
    var g1 := m.graph1;
    var a, b := AttachPair(g1);
    var g2 := m.graph2;
    var c, d := AttachPair(g2);
    assert g1.traces[0] == a && a.parent == g1 && a.Ids() == NoIds && g1.counter == 0;
    counter0 := g1.counter;
    var t0 := g1.traces[0];
    var _ := t0.Register(Main);
    assert t0.Ids() == NoIds.With(Main, Some(0)) && g1.counter == 1;
    var _ := t0.Register(Point);
    assert t0.Ids() == NoIds.With(Main, Some(0)).With(Point, Some(1)) && g1.counter == 2;
    mainId, pointId, hiId := t0.main, t0.point, t0.hi;
    counter1 := g1.counter;
    again := t0.Register(Main);
  }
}
