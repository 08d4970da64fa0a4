/**
 * What `make_flexgraph` guarantees about the figure it builds from registries
 * nothing has been registered in: the traces come in the order of its passes,
 * each on the axis its configuration asks for; exactly the expected roles are
 * registered; and every registered id is the position of its trace or its
 * annotation in the figure.
 */
module FlexgraphProperties {
  import opened Py
  import opened SetupConfig
  import opened Name2Id
  import opened Flexgraph

  /** The stage of `make_flexgraph` that adds a role: bands, main traces, minimum, maximum, markers. */
  function Stage(r: Role): nat
  {
    match r
    case Lo => 0
    case Hi => 0
    case Main => 1
    case MinLine => 2
    case MaxLine => 3
    case Point => 4
  }

  /** The order of the roles of one configured trace within a stage: lo before hi. */
  function Rank(r: Role): nat
  {
    match r
    case Lo => 0
    case Hi => 1
    case Main => 2
    case MinLine => 3
    case MaxLine => 4
    case Point => 5
  }

  /** Figure trace a is added before b: in an earlier stage, or in the same stage for an earlier trace, or lo before hi. */
  predicate Before(a: FigTrace, b: FigTrace)
  {
    Stage(a.role) < Stage(b.role) ||
    (Stage(a.role) == Stage(b.role) && (a.trace < b.trace || (a.trace == b.trace && Rank(a.role) < Rank(b.role))))
  }

  /** The figure traces are in insertion order, which also makes their slots distinct. */
  ghost predicate Ordered(fig: seq<FigTrace>)
  {
    forall p, q :: 0 <= p < q < |fig| ==> Before(fig[p], fig[q])
  }

  /** Every figure trace belongs to a stage between lo and hi. */
  ghost predicate StagesIn(fig: seq<FigTrace>, lo: nat, hi: nat)
  {
    forall p :: 0 <= p < |fig| ==> lo <= Stage(fig[p].role) <= hi
  }

  /** Some figure trace has the slot of role r of configured trace k. */
  ghost predicate Holds(fig: seq<FigTrace>, k: nat, r: Role)
  {
    exists p :: 0 <= p < |fig| && fig[p].trace == k && fig[p].role == r
  }

  /**
   * The roles `make_flexgraph` adds for trace k: the bands exactly with
   * `errors`, the main trace always, the minimum and maximum lines when
   * `showmin`/`showmax` name k, the marker exactly with `point`.
   */
  predicate Expected(cfg: GraphConfig, k: nat, r: Role)
    requires k < |cfg.traces|
  {
    match r
    case Lo => cfg.traces[k].errors
    case Hi => cfg.traces[k].errors
    case Main => true
    case MinLine => Shows(cfg.showmin, k)
    case MaxLine => Shows(cfg.showmax, k)
    case Point => cfg.traces[k].point
  }

  /**
   * The ids of reg number the (trace, role) slots in order: the id of slot p
   * is p, every id set belongs to the slot at that position, and the counter
   * is the number of slots.
   */
  ghost predicate Aligned(slots: seq<(nat, Role)>, reg: Registry)
  {
    reg.counter == |slots| &&
    (forall p :: 0 <= p < |slots| ==> slots[p].0 < |reg.ids| && reg.ids[slots[p].0].Get(slots[p].1) == Some(p)) &&
    (forall i, role :: 0 <= i < |reg.ids| && reg.ids[i].Get(role).Some? ==>
       reg.ids[i].Get(role).value < |slots| && slots[reg.ids[i].Get(role).value] == (i, role))
  }

  /** The stage of a pass. */
  function PassStage(pass: Pass): nat
  {
    match pass
    case BandPass => 0
    case MainPass => 1
    case PointPass => 4
  }

  /** Every figure trace is of trace k at least. */
  ghost predicate FromTrace(fig: seq<FigTrace>, k: nat)
  {
    forall p :: 0 <= p < |fig| ==> k <= fig[p].trace
  }

  /** The traces a pass adds for trace k are in insertion order, of trace k and at the pass's stage. */
  lemma TracesOrdered(cfg: GraphConfig, pass: Pass, k: nat)
    requires k < |cfg.traces|
    ensures var head := PassTraces(cfg, pass, k);
            Ordered(head) && StagesIn(head, PassStage(pass), PassStage(pass)) &&
            forall p :: 0 <= p < |head| ==> head[p].trace == k
  {
  }

  /** An ordered run of trace k followed by an ordered run of later traces, all at one stage, is ordered. */
  lemma OrderedJoin(a: seq<FigTrace>, b: seq<FigTrace>, s: nat, k: nat)
    requires Ordered(a) && Ordered(b) && StagesIn(a, s, s) && StagesIn(b, s, s)
    requires (forall p :: 0 <= p < |a| ==> a[p].trace == k) && FromTrace(b, k + 1)
    ensures Ordered(a + b) && StagesIn(a + b, s, s) && FromTrace(a + b, k)
  {
    forall p, q | 0 <= p < q < |a + b|
      ensures Before((a + b)[p], (a + b)[q])
    {
      if q < |a| {
        assert Before(a[p], a[q]);
      } else if p >= |a| {
        assert Before(b[p - |a|], b[q - |a|]);
      } else {
        assert a[p].trace < b[q - |a|].trace;
      }
    }
  }

  /** A pass from trace k on plans its traces in insertion order, all at its stage and of trace k or later. */
  lemma {:induction false} PlanOrdered(cfg: GraphConfig, pass: Pass, k: nat)
    ensures var plan := PassPlan(cfg, pass, k);
            Ordered(plan) && StagesIn(plan, PassStage(pass), PassStage(pass)) && FromTrace(plan, k)
    decreases |cfg.traces| - k
  {
    if k < |cfg.traces| {
      PlanOrdered(cfg, pass, k + 1);
      TracesOrdered(cfg, pass, k);
      OrderedJoin(PassTraces(cfg, pass, k), PassPlan(cfg, pass, k + 1), PassStage(pass), k);
    }
  }

  /** Two ordered parts, the first in earlier stages than the second, make an ordered whole. */
  lemma OrderedConcat(a: seq<FigTrace>, b: seq<FigTrace>, lo: nat, m: nat, hi: nat)
    requires lo <= m < hi && Ordered(a) && Ordered(b) && StagesIn(a, lo, m) && StagesIn(b, m + 1, hi)
    ensures Ordered(a + b) && StagesIn(a + b, lo, hi)
  {
    forall p, q | 0 <= p < q < |a + b|
      ensures Before((a + b)[p], (a + b)[q])
    {
      if q < |a| {
        assert Before(a[p], a[q]);
      } else if p >= |a| {
        assert Before(b[p - |a|], b[q - |a|]);
      } else {
        assert Stage(a[p].role) <= m < Stage(b[q - |a|].role);
      }
    }
    forall p | 0 <= p < |a + b|
      ensures lo <= Stage((a + b)[p].role) <= hi
    {
      if p >= |a| {
        assert (a + b)[p] == b[p - |a|];
      }
    }
  }

  /** The line for a `showmin`/`showmax` value is ordered and at its role's stage. */
  lemma LineOrdered(cfg: GraphConfig, role: Role, v: PyVal)
    ensures Ordered(LineFor(cfg, role, v)) && StagesIn(LineFor(cfg, role, v), Stage(role), Stage(role))
  {
  }

  /** The figure `Layout` describes is in insertion order. */
  lemma LayoutOrdered(cfg: GraphConfig)
    ensures Ordered(Layout(cfg))
  {
    var bands, mains := PassPlan(cfg, BandPass, 0), PassPlan(cfg, MainPass, 0);
    var lmin, lmax := LineFor(cfg, MinLine, cfg.showmin), LineFor(cfg, MaxLine, cfg.showmax);
    var points := PassPlan(cfg, PointPass, 0);
    PlanOrdered(cfg, BandPass, 0);
    PlanOrdered(cfg, MainPass, 0);
    PlanOrdered(cfg, PointPass, 0);
    LineOrdered(cfg, MinLine, cfg.showmin);
    LineOrdered(cfg, MaxLine, cfg.showmax);
    OrderedConcat(bands, mains, 0, 0, 1);
    OrderedConcat(bands + mains, lmin, 0, 1, 2);
    OrderedConcat(bands + mains + lmin, lmax, 0, 2, 3);
    OrderedConcat(bands + mains + lmin + lmax, points, 0, 3, 4);
  }

  /** A figure trace is the trace or line its role makes for a configured trace. */
  predicate Made(cfg: GraphConfig, t: FigTrace)
  {
    t.trace < |cfg.traces| &&
    t == (if t.role == MinLine || t.role == MaxLine then NewLine(cfg, t.trace, t.role) else NewTrace(cfg, t.trace, t.role))
  }

  /** Every figure trace is made for a configured trace. */
  ghost predicate AllMade(cfg: GraphConfig, fig: seq<FigTrace>)
  {
    forall p :: 0 <= p < |fig| ==> Made(cfg, fig[p])
  }

  /** A concatenation of made figure traces is made. */
  lemma MadeConcat(cfg: GraphConfig, a: seq<FigTrace>, b: seq<FigTrace>)
    requires AllMade(cfg, a) && AllMade(cfg, b)
    ensures AllMade(cfg, a + b)
  {
    forall p | 0 <= p < |a + b|
      ensures Made(cfg, (a + b)[p])
    {
      if p >= |a| {
        assert (a + b)[p] == b[p - |a|];
      }
    }
  }

  /** Every figure trace a pass plans is made for a configured trace. */
  lemma PlanMade(cfg: GraphConfig, pass: Pass)
    ensures AllMade(cfg, PassPlan(cfg, pass, 0))
  {
    PlanTraces(cfg, pass, 0);
  }

  /** Every figure trace of `Layout` is made for a configured trace. */
  lemma LayoutTraces(cfg: GraphConfig)
    ensures AllMade(cfg, Layout(cfg))
  {
    var bands, mains := PassPlan(cfg, BandPass, 0), PassPlan(cfg, MainPass, 0);
    var lmin, lmax := LineFor(cfg, MinLine, cfg.showmin), LineFor(cfg, MaxLine, cfg.showmax);
    var points := PassPlan(cfg, PointPass, 0);
    PlanMade(cfg, BandPass);
    PlanMade(cfg, MainPass);
    PlanMade(cfg, PointPass);
    assert AllMade(cfg, lmin) && AllMade(cfg, lmax);
    MadeConcat(cfg, bands, mains);
    MadeConcat(cfg, bands + mains, lmin);
    MadeConcat(cfg, bands + mains + lmin, lmax);
    MadeConcat(cfg, bands + mains + lmin + lmax, points);
  }

  /**
   * The shape of the figure: the traces come in insertion order (bands lo
   * then hi per trace, main traces, minimum, maximum, markers, each pass in
   * trace order), and every trace is on the secondary y axis exactly when
   * the graph has subplots and its configured `yaxis` is not "primary".
   */
  lemma LayoutShape(cfg: GraphConfig)
    ensures Ordered(Layout(cfg))
    ensures forall p :: 0 <= p < |Layout(cfg)| ==>
              Layout(cfg)[p].trace < |cfg.traces| &&
              (Layout(cfg)[p].secondary <==> HasSubplots(cfg) && cfg.traces[Layout(cfg)[p].trace].yaxis != "primary")
  {
    LayoutOrdered(cfg);
    LayoutTraces(cfg);
    forall p | 0 <= p < |Layout(cfg)|
      ensures Layout(cfg)[p].trace < |cfg.traces| &&
              (Layout(cfg)[p].secondary <==> HasSubplots(cfg) && cfg.traces[Layout(cfg)[p].trace].yaxis != "primary")
    {
      assert Made(cfg, Layout(cfg)[p]);
    }
  }

  /** A slot is in a concatenation exactly when it is in one of the parts. */
  lemma HoldsConcat(a: seq<FigTrace>, b: seq<FigTrace>, k: nat, r: Role)
    ensures Holds(a + b, k, r) <==> Holds(a, k, r) || Holds(b, k, r)
  {
    if Holds(a + b, k, r) {
      var p :| 0 <= p < |a + b| && (a + b)[p].trace == k && (a + b)[p].role == r;
      if p >= |a| {
        assert b[p - |a|] == (a + b)[p];
      }
    }
    if Holds(a, k, r) {
      var p :| 0 <= p < |a| && a[p].trace == k && a[p].role == r;
      assert (a + b)[p] == a[p];
    }
    if Holds(b, k, r) {
      var q :| 0 <= q < |b| && b[q].trace == k && b[q].role == r;
      assert (a + b)[|a| + q] == b[q];
    }
  }

  /** The traces a pass adds for trace j hold role r of trace k exactly when k is j and the pass adds r for it. */
  lemma TracesHold(cfg: GraphConfig, pass: Pass, j: nat, k: nat, r: Role)
    requires j < |cfg.traces|
    ensures Holds(PassTraces(cfg, pass, j), k, r) <==> j == k && r in PassRoles(pass, cfg.traces[j])
  {
    var head, roles := PassTraces(cfg, pass, j), PassRoles(pass, cfg.traces[j]);
    if j == k && r in roles {
      var i :| 0 <= i < |roles| && roles[i] == r;
      assert head[i].trace == k && head[i].role == r;
    }
  }

  /** A pass from trace j on adds role r of trace k exactly when k is not before j and the role is one the pass adds for k. */
  lemma {:induction false} PlanHolds(cfg: GraphConfig, pass: Pass, j: nat, k: nat, r: Role)
    requires k < |cfg.traces|
    ensures Holds(PassPlan(cfg, pass, j), k, r) <==> j <= k && r in PassRoles(pass, cfg.traces[k])
    decreases |cfg.traces| - j
  {
    if j < |cfg.traces| {
      PlanHolds(cfg, pass, j + 1, k, r);
      TracesHold(cfg, pass, j, k, r);
      HoldsConcat(PassTraces(cfg, pass, j), PassPlan(cfg, pass, j + 1), k, r);
    }
  }

  /** The line for a `showmin`/`showmax` value holds the slot of role r of trace k exactly when it is that line's role and the value names k. */
  lemma LineHolds(cfg: GraphConfig, role: Role, v: PyVal, k: nat, r: Role)
    requires k < |cfg.traces|
    ensures Holds(LineFor(cfg, role, v), k, r) <==> r == role && Shows(v, k)
  {
    if r == role && Shows(v, k) {
      assert LineFor(cfg, role, v)[0].trace == k;
    }
  }

  /** `Layout` holds a slot exactly when one of its five parts does. */
  lemma LayoutParts(cfg: GraphConfig, k: nat, r: Role)
    ensures Holds(Layout(cfg), k, r) <==>
              Holds(PassPlan(cfg, BandPass, 0), k, r) || Holds(PassPlan(cfg, MainPass, 0), k, r) ||
              Holds(LineFor(cfg, MinLine, cfg.showmin), k, r) || Holds(LineFor(cfg, MaxLine, cfg.showmax), k, r) ||
              Holds(PassPlan(cfg, PointPass, 0), k, r)
  {
    var bands, mains := PassPlan(cfg, BandPass, 0), PassPlan(cfg, MainPass, 0);
    var lmin, lmax := LineFor(cfg, MinLine, cfg.showmin), LineFor(cfg, MaxLine, cfg.showmax);
    var points := PassPlan(cfg, PointPass, 0);
    HoldsConcat(bands, mains, k, r);
    HoldsConcat(bands + mains, lmin, k, r);
    HoldsConcat(bands + mains + lmin, lmax, k, r);
    HoldsConcat(bands + mains + lmin + lmax, points, k, r);
  }

  /** `Layout` holds the slot of role r of trace k exactly when that role is expected. */
  lemma LayoutHolds(cfg: GraphConfig, k: nat, r: Role)
    requires k < |cfg.traces|
    ensures Holds(Layout(cfg), k, r) <==> Expected(cfg, k, r)
  {
    LayoutParts(cfg, k, r);
    PlanHolds(cfg, BandPass, 0, k, r);
    PlanHolds(cfg, MainPass, 0, k, r);
    PlanHolds(cfg, PointPass, 0, k, r);
    LineHolds(cfg, MinLine, cfg.showmin, k, r);
    LineHolds(cfg, MaxLine, cfg.showmax, k, r);
  }

  /** Registering distinct slots of existing entries into unused entries numbers them by position. */
  lemma AlignedAfter(base: seq<RoleIds>, slots: seq<(nat, Role)>)
    requires Unused(base)
    requires forall p :: 0 <= p < |slots| ==> slots[p].0 < |base|
    requires forall p, q :: 0 <= p < q < |slots| ==> slots[p] != slots[q]
    ensures Aligned(slots, After(base, slots))
  {
    var reg := After(base, slots);
    forall p | 0 <= p < |slots|
      ensures reg.ids[slots[p].0].Get(slots[p].1) == Some(p)
    {
      GetAfter(base, slots, slots[p].0, slots[p].1);
    }
    forall i, role | 0 <= i < |reg.ids| && reg.ids[i].Get(role).Some?
      ensures reg.ids[i].Get(role).value < |slots| && slots[reg.ids[i].Get(role).value] == (i, role)
    {
      GetAfter(base, slots, i, role);
      assert base[i] == NoIds;
    }
  }

  /** The slots of an ordered figure are distinct. */
  lemma OrderedDistinct(fig: seq<FigTrace>)
    requires Ordered(fig)
    ensures forall p, q :: 0 <= p < q < |Slots(fig)| ==> Slots(fig)[p] != Slots(fig)[q]
  {
    forall p, q | 0 <= p < q < |fig|
      ensures Slots(fig)[p] != Slots(fig)[q]
    {
      assert Before(fig[p], fig[q]);
    }
  }

  /** An aligned registry has a role of entry k set exactly when the figure holds that slot. */
  lemma AlignedHolds(fig: seq<FigTrace>, reg: Registry, k: nat, r: Role)
    requires Aligned(Slots(fig), reg) && k < |reg.ids|
    ensures reg.ids[k].Get(r).Some? <==> Holds(fig, k, r)
  {
    if Holds(fig, k, r) {
      var p :| 0 <= p < |fig| && fig[p].trace == k && fig[p].role == r;
      assert Slots(fig)[p] == (k, r);
    }
    if reg.ids[k].Get(r).Some? {
      var p := reg.ids[k].Get(r).value;
      assert Slots(fig)[p] == (k, r);
    }
  }

  /** The trace registry after `Layout` numbers its slots by position. */
  lemma LayoutAligned(cfg: GraphConfig, base: seq<RoleIds>)
    requires Unused(base) && |cfg.traces| <= |base|
    ensures Aligned(Slots(Layout(cfg)), After(base, Slots(Layout(cfg))))
  {
    LayoutOrdered(cfg);
    OrderedDistinct(Layout(cfg));
    LayoutTraces(cfg);
    AlignedAfter(base, Slots(Layout(cfg)));
  }

  /**
   * The annotations in insertion order: at most the minimum's then the
   * maximum's, each of a configured trace, hidden, at the right end of
   * `XRANGE` and height 0; the annotation registry after them numbers them
   * by position.
   */
  lemma AnnotsAligned(cfg: GraphConfig, base: seq<RoleIds>)
    requires Unused(base) && |cfg.traces| <= |base|
    ensures var annots := AnnotLayout(cfg);
            (forall p :: 0 <= p < |annots| ==>
               annots[p].trace < |cfg.traces| && !annots[p].visible &&
               annots[p].x == XRange(cfg.totalx).1 && annots[p].y == 0.0 &&
               (annots[p].role == MinLine || annots[p].role == MaxLine)) &&
            (forall p, q :: 0 <= p < q < |annots| ==> annots[p].role == MinLine && annots[q].role == MaxLine) &&
            Aligned(AnnotSlots(annots), After(base, AnnotSlots(annots)))
  {
    var annots := AnnotLayout(cfg);
    AlignedAfter(base, AnnotSlots(annots));
  }

  /**
   * `make_flexgraph` on registries nothing has been registered in, with
   * acceptable `showmin` and `showmax`, raises nothing, adds the traces of
   * `Layout` and the annotations of `AnnotLayout`, and leaves both
   * registries numbering their slots by position: every registered id is
   * the position of its trace or annotation, and the counters end at their
   * number.
   */
  lemma FlexIdsArePositions(cfg: GraphConfig, t2id: Registry, a2id: Registry)
    requires Fresh(t2id) && Fresh(a2id) && |cfg.traces| <= |t2id.ids| && |cfg.traces| <= |a2id.ids|
    requires LineOk(cfg, cfg.showmin) && LineOk(cfg, cfg.showmax)
    ensures var r := Flex(cfg, t2id, a2id);
            r.1.None? && r.0.fig == Layout(cfg) && r.0.annots == AnnotLayout(cfg) &&
            |r.0.t2id.ids| == |t2id.ids| && |r.0.a2id.ids| == |a2id.ids| &&
            Aligned(Slots(r.0.fig), r.0.t2id) && Aligned(AnnotSlots(r.0.annots), r.0.a2id)
  {
    FlexBuilds(cfg, t2id, a2id);
    assert Unused(t2id.ids) && Unused(a2id.ids);
    LayoutAligned(cfg, t2id.ids);
    AnnotsAligned(cfg, a2id.ids);
  }

  /** The trace registry after `Layout` has a role of entry k set exactly when the role is expected. */
  lemma TracesRegistered(cfg: GraphConfig, base: seq<RoleIds>, k: nat, r: Role)
    requires Unused(base) && |cfg.traces| <= |base| && k < |cfg.traces|
    ensures After(base, Slots(Layout(cfg))).ids[k].Get(r).Some? <==> Expected(cfg, k, r)
  {
    LayoutAligned(cfg, base);
    AlignedHolds(Layout(cfg), After(base, Slots(Layout(cfg))), k, r);
    LayoutHolds(cfg, k, r);
  }

  /** The slot of the annotation a `showmin`/`showmax` value asks for, if any. */
  function LineSlot(cfg: GraphConfig, role: Role, v: PyVal): (s: seq<(nat, Role)>)
  {
    if IsFalse(v) || LineTrace(v).Err? || LineTrace(v).value >= |cfg.traces| then [] else [(LineTrace(v).value, role)]
  }

  /** The slots of `AnnotLayout` are the minimum's slot, then the maximum's. */
  lemma AnnotLayoutSlots(cfg: GraphConfig)
    ensures AnnotSlots(AnnotLayout(cfg)) == LineSlot(cfg, MinLine, cfg.showmin) + LineSlot(cfg, MaxLine, cfg.showmax)
  {
  }

  /** An aligned registry has a role of entry k set exactly when the slot is among the aligned ones. */
  lemma AlignedHas(slots: seq<(nat, Role)>, reg: Registry, k: nat, r: Role)
    requires Aligned(slots, reg) && k < |reg.ids|
    ensures reg.ids[k].Get(r).Some? <==> (k, r) in slots
  {
    if (k, r) in slots {
      var p :| 0 <= p < |slots| && slots[p] == (k, r);
    }
  }

  /** The annotation registry after `AnnotLayout` has a role of entry k set exactly for the line `showmin`/`showmax` names. */
  lemma AnnotsRegistered(cfg: GraphConfig, base: seq<RoleIds>, k: nat, r: Role)
    requires Unused(base) && |cfg.traces| <= |base| && k < |cfg.traces|
    ensures After(base, AnnotSlots(AnnotLayout(cfg))).ids[k].Get(r).Some? <==>
              (r == MinLine && Shows(cfg.showmin, k)) || (r == MaxLine && Shows(cfg.showmax, k))
  {
    AnnotsAligned(cfg, base);
    AlignedHas(AnnotSlots(AnnotLayout(cfg)), After(base, AnnotSlots(AnnotLayout(cfg))), k, r);
    AnnotLayoutSlots(cfg);
  }

  /**
   * After `make_flexgraph` as above, a role of configured trace k has an id
   * exactly when it is expected, and an annotation id exactly for the
   * minimum or maximum line `showmin`/`showmax` names.
   */
  lemma FlexRegistersExpected(cfg: GraphConfig, t2id: Registry, a2id: Registry, k: nat, r: Role)
    requires Fresh(t2id) && Fresh(a2id) && |cfg.traces| <= |t2id.ids| && |cfg.traces| <= |a2id.ids|
    requires LineOk(cfg, cfg.showmin) && LineOk(cfg, cfg.showmax)
    requires k < |cfg.traces|
    ensures var b := Flex(cfg, t2id, a2id).0;
            |b.t2id.ids| == |t2id.ids| && |b.a2id.ids| == |a2id.ids| &&
            (b.t2id.ids[k].Get(r).Some? <==> Expected(cfg, k, r)) &&
            (b.a2id.ids[k].Get(r).Some? <==> (r == MinLine && Shows(cfg.showmin, k)) || (r == MaxLine && Shows(cfg.showmax, k)))
  {
    FlexBuilds(cfg, t2id, a2id);
    assert Unused(t2id.ids) && Unused(a2id.ids);
    TracesRegistered(cfg, t2id.ids, k, r);
    AnnotsRegistered(cfg, a2id.ids, k, r);
  }

  /**
   * A `showmin` that is not False and does not name a configured trace makes
   * `make_flexgraph` raise `int(showmin[-1])`'s exception, or IndexError when
   * the digit is not a trace; with an acceptable `showmin`, the same holds
   * for `showmax`.
   */
  lemma FlexRejects(cfg: GraphConfig, t2id: Registry, a2id: Registry)
    requires Fresh(t2id) && |cfg.traces| <= |t2id.ids|
    ensures !LineOk(cfg, cfg.showmin) ==>
              Flex(cfg, t2id, a2id).1 == Some(if LineTrace(cfg.showmin).Err? then LineTrace(cfg.showmin).error else IndexError)
    ensures Fresh(a2id) && |cfg.traces| <= |a2id.ids| && LineOk(cfg, cfg.showmin) && !LineOk(cfg, cfg.showmax) ==>
              Flex(cfg, t2id, a2id).1 == Some(if LineTrace(cfg.showmax).Err? then LineTrace(cfg.showmax).error else IndexError)
  {
    FlexFront(cfg, t2id, a2id);
    if Fresh(a2id) && |cfg.traces| <= |a2id.ids| && LineOk(cfg, cfg.showmin) {
      var b1 := PassStep(cfg, BandPass, Build([], [], t2id, a2id)).0;
      var b2 := PassStep(cfg, MainPass, b1).0;
      assert a2id == After(a2id.ids, []);
      FlexMin(cfg, b2, t2id.ids, a2id.ids);
    }
  }
}
