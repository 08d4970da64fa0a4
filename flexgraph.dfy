/**
 * `make_flexgraph`: the figure of one graph built trace by trace. Five passes
 * add the band traces, the main traces, the minimum line, the maximum line and
 * the endpoint markers, in that order; every trace added is registered under
 * its role in the trace registry, and every annotation in the annotation
 * registry, in the same order. Styling is not modelled: a trace is its role,
 * the configured trace it belongs to, its y axis and its initial data.
 */
module Flexgraph {
  import opened Py
  import opened SetupConfig
  import opened Name2Id

  /** The share of the x extent added on each side of the x axis. */
  const PaddingFactor: real := 0.03

  /** `XRANGE`: the x extent padded on both sides by the same amount. */
  function XRange(totalx: int): (r: (real, real))
    ensures r.1 - totalx as real == -r.0
    ensures 0 <= totalx ==> r.0 <= 0.0 && totalx as real <= r.1
  {
    (-PaddingFactor * totalx as real, (1.0 + PaddingFactor) * totalx as real)
  }

  /** A trace of the figure: its role, its configured trace, whether it is on the secondary y axis, and its initial x and y (None is a gap). */
  datatype FigTrace = FigTrace(role: Role, trace: nat, secondary: bool, x: seq<Option<real>>, y: seq<Option<real>>)

  /** An annotation of the figure: the line it labels, its trace, its position, its caption and whether it shows. */
  datatype Annot = Annot(role: Role, trace: nat, x: real, y: real, caption: string, visible: bool)

  /** The plotly figure as the list of its traces and the list of its annotations. */
  class Figure {
    var subplots: bool
    var traces: seq<FigTrace>
    var annots: seq<Annot>

    /** `_init_fig`: a figure with a secondary y axis when the graph has subplots; no traces yet. */
    constructor (subplots: bool)
      ensures this.subplots == subplots && traces == [] && annots == []
    {
      this.subplots := subplots;
      traces := [];
      annots := [];
    }

    /** `add_trace` and `add_traces`: the traces go at the end, in order. */
    method AddTraces(ts: seq<FigTrace>)
      modifies this
      ensures traces == old(traces) + ts && annots == old(annots) && subplots == old(subplots)
    {
      traces := traces + ts;
    }

    /** `add_annotation`: the annotation goes at the end. */
    method AddAnnotation(a: Annot)
      modifies this
      ensures annots == old(annots) + [a] && traces == old(traces) && subplots == old(subplots)
    {
      annots := annots + [a];
    }
  }

  /** Whether trace k's figure traces go on the secondary y axis: only with subplots, and then when its `yaxis` is not "primary". */
  predicate Secondary(cfg: GraphConfig, k: nat)
    requires k < |cfg.traces|
  {
    HasSubplots(cfg) && cfg.traces[k].yaxis != "primary"
  }

  /** The figure trace of configured trace k in one of the looped roles: one gap for lines and bands, two for the marker. */
  function NewTrace(cfg: GraphConfig, k: nat, role: Role): (t: FigTrace)
    requires k < |cfg.traces|
    ensures t.role == role && t.trace == k && (t.secondary <==> Secondary(cfg, k))
  {
    var gaps := if role == Point then [None, None] else [None];
    FigTrace(role, k, Secondary(cfg, k), gaps, gaps)
  }

  /** The extremum line of trace k: from x = 0 to the right end of `XRANGE`, with no level yet. */
  function NewLine(cfg: GraphConfig, k: nat, role: Role): (t: FigTrace)
    requires k < |cfg.traces|
    ensures t.role == role && t.trace == k && (t.secondary <==> Secondary(cfg, k))
    ensures t.x == [Some(0.0), Some(XRange(cfg.totalx).1)] && t.y == [None, None]
  {
    FigTrace(role, k, Secondary(cfg, k), [Some(0.0), Some(XRange(cfg.totalx).1)], [None, None])
  }

  /** The annotation of an extremum line: right of the plot at height 0, hidden until the first update. */
  function NewAnnot(cfg: GraphConfig, k: nat, role: Role): (a: Annot)
    ensures a.role == role && a.trace == k && !a.visible
  {
    Annot(role, k, XRange(cfg.totalx).1, 0.0, if role == MinLine then "minimum" else "maximum", false)
  }

  /** The role ids of a graph's traces and the counter they share, as values. */
  datatype Registry = Registry(ids: seq<RoleIds>, counter: nat)

  /**
   * `reg.ids[k].register(role)`: IndexError without an entry k, ValueError when
   * the role is set, else the role takes the counter's value and the counter
   * advances; nothing else changes.
   */
  function Register(reg: Registry, k: nat, role: Role): Result<Registry>
  {
    if k >= |reg.ids| then Err(IndexError)
    else if reg.ids[k].Get(role).Some? then Err(ValueError)
    else Ok(Registry(reg.ids[k := reg.ids[k].With(role, Some(reg.counter))], reg.counter + 1))
  }

  /**
   * Registration raises IndexError without an entry k and ValueError when the
   * role is set; otherwise exactly that role changes, to the counter's value,
   * and the counter advances.
   */
  lemma RegisterMeaning(reg: Registry, k: nat, role: Role)
    ensures Register(reg, k, role).Err? <==> k >= |reg.ids| || reg.ids[k].Get(role).Some?
    ensures k >= |reg.ids| ==> Register(reg, k, role) == Err(IndexError)
    ensures k < |reg.ids| && reg.ids[k].Get(role).Some? ==> Register(reg, k, role) == Err(ValueError)
    ensures Register(reg, k, role).Ok? ==>
              (var r := Register(reg, k, role).value;
               |r.ids| == |reg.ids| && r.counter == reg.counter + 1 && r.ids[k].Get(role) == Some(reg.counter) &&
               forall i, other :: 0 <= i < |reg.ids| && (i != k || other != role) ==> r.ids[i].Get(other) == reg.ids[i].Get(other))
  {
  }

  /** A registry that nothing has been registered in yet. */
  predicate Fresh(reg: Registry)
  {
    reg.counter == 0 && forall i :: 0 <= i < |reg.ids| ==> reg.ids[i] == NoIds
  }

  /** The (trace, role) slots of a list of figure traces. */
  function Slots(fig: seq<FigTrace>): (s: seq<(nat, Role)>)
    ensures |s| == |fig| && forall p :: 0 <= p < |fig| ==> s[p] == (fig[p].trace, fig[p].role)
  {
    seq(|fig|, p requires 0 <= p < |fig| => (fig[p].trace, fig[p].role))
  }

  /** The (trace, role) slots of a list of annotations. */
  function AnnotSlots(annots: seq<Annot>): (s: seq<(nat, Role)>)
    ensures |s| == |annots| && forall p :: 0 <= p < |annots| ==> s[p] == (annots[p].trace, annots[p].role)
  {
    seq(|annots|, p requires 0 <= p < |annots| => (annots[p].trace, annots[p].role))
  }

  /** The passes over all configured traces. */
  datatype Pass = BandPass | MainPass | PointPass

  /** The roles a pass adds for one configured trace: the two bands with `errors`, the main line always, the marker with `point`. */
  function PassRoles(pass: Pass, tc: TraceConfig): (rs: seq<Role>)
  {
    match pass
    case BandPass => if tc.errors then [Lo, Hi] else []
    case MainPass => [Main]
    case PointPass => if tc.point then [Point] else []
  }

  /** The figure traces of trace k in a pass. */
  function PassTraces(cfg: GraphConfig, pass: Pass, k: nat): (ts: seq<FigTrace>)
    requires k < |cfg.traces|
    ensures |ts| == |PassRoles(pass, cfg.traces[k])|
    ensures forall i :: 0 <= i < |ts| ==> ts[i] == NewTrace(cfg, k, PassRoles(pass, cfg.traces[k])[i])
  {
    match pass
    case BandPass => if cfg.traces[k].errors then [NewTrace(cfg, k, Lo), NewTrace(cfg, k, Hi)] else []
    case MainPass => [NewTrace(cfg, k, Main)]
    case PointPass => if cfg.traces[k].point then [NewTrace(cfg, k, Point)] else []
  }

  /** Registers roles for trace k one after the other; the first exception stops it, with the registry as it then is. */
  function RegisterRoles(reg: Registry, k: nat, roles: seq<Role>): (r: (Registry, Option<PyError>))
    decreases |roles|
  {
    if |roles| == 0 then (reg, None)
    else
      var r := Register(reg, k, roles[0]);
      if r.Err? then (reg, Some(r.error)) else RegisterRoles(r.value, k, roles[1..])
  }

  /**
   * A pass from trace k on: each trace's figure traces are added and then their
   * roles registered, until the first exception.
   */
  function PassFrom(cfg: GraphConfig, pass: Pass, fig: seq<FigTrace>, reg: Registry, k: nat): (r: (seq<FigTrace>, Registry, Option<PyError>))
    decreases |cfg.traces| - k
  {
    if k >= |cfg.traces| then (fig, reg, None)
    else
      var fig' := fig + PassTraces(cfg, pass, k);
      var (reg', e) := RegisterRoles(reg, k, PassRoles(pass, cfg.traces[k]));
      if e.Some? then (fig', reg', e) else PassFrom(cfg, pass, fig', reg', k + 1)
  }

  /** The figure traces a whole pass adds from trace k on, in trace order. */
  function PassPlan(cfg: GraphConfig, pass: Pass, k: nat): (ts: seq<FigTrace>)
    decreases |cfg.traces| - k
  {
    if k >= |cfg.traces| then [] else PassTraces(cfg, pass, k) + PassPlan(cfg, pass, k + 1)
  }

  /**
   * `int(v[-1])` on a `showmin`/`showmax` value that is not False: the digit
   * its string ends in. An int or True is not subscriptable (TypeError), an
   * empty string has no last character (IndexError), and a non-digit does
   * not convert (ValueError).
   */
  function LineTrace(v: PyVal): (r: Result<nat>)
    ensures r.Ok? ==> v.PyStr? && |v.s| > 0 && '0' <= v.s[|v.s| - 1] <= '9' &&
                      r.value == (v.s[|v.s| - 1] - '0') as nat && r.value < 10
    ensures v.PyStr? && |v.s| > 0 && '0' <= v.s[|v.s| - 1] <= '9' ==> r.Ok?
    ensures v.PyStr? && |v.s| == 0 ==> r == Err(IndexError)
    ensures v.PyStr? && |v.s| > 0 && !('0' <= v.s[|v.s| - 1] <= '9') ==> r == Err(ValueError)
    ensures v.PyInt? || v.PyBool? ==> r == Err(TypeError)
  {
    match v
    case PyBool(_) => Err(TypeError)
    case PyInt(_) => Err(TypeError)
    case PyStr(s) =>
      if |s| == 0 then Err(IndexError)
      else if '0' <= s[|s| - 1] <= '9' then Ok((s[|s| - 1] - '0') as nat)
      else Err(ValueError)
  }

  /** Everything `make_flexgraph` builds: the figure's traces and annotations and the two registries. */
  datatype Build = Build(fig: seq<FigTrace>, annots: seq<Annot>, t2id: Registry, a2id: Registry)

  /**
   * `_add_traces_min` (role MinLine, value `showmin`) or `_add_traces_max`
   * (MaxLine, `showmax`): nothing when the value is False; otherwise the line
   * of the trace it names is added and registered, then its annotation is
   * added and registered. The first exception stops it.
   */
  function LineStep(cfg: GraphConfig, role: Role, v: PyVal, b: Build): (r: (Build, Option<PyError>))
  {
    if IsFalse(v) then (b, None)
    else
      var k := LineTrace(v);
      if k.Err? then (b, Some(k.error))
      else if k.value >= |cfg.traces| then (b, Some(IndexError))
      else
        var fig := b.fig + [NewLine(cfg, k.value, role)];
        var t := Register(b.t2id, k.value, role);
        if t.Err? then (b.(fig := fig), Some(t.error))
        else
          var annots := b.annots + [NewAnnot(cfg, k.value, role)];
          var a := Register(b.a2id, k.value, role);
          if a.Err? then (Build(fig, annots, t.value, b.a2id), Some(a.error))
          else (Build(fig, annots, t.value, a.value), None)
  }

  /** A pass over all traces as a step of the build; the annotations and their registry are untouched. */
  function PassStep(cfg: GraphConfig, pass: Pass, b: Build): (r: (Build, Option<PyError>))
  {
    var (fig, reg, e) := PassFrom(cfg, pass, b.fig, b.t2id, 0);
    (b.(fig := fig, t2id := reg), e)
  }

  /** The build of `make_flexgraph` from the given registries: the five steps in order, up to the first exception. */
  function Flex(cfg: GraphConfig, t2id: Registry, a2id: Registry): (r: (Build, Option<PyError>))
  {
    var (b1, e1) := PassStep(cfg, BandPass, Build([], [], t2id, a2id));
    if e1.Some? then (b1, e1)
    else
      var (b2, e2) := PassStep(cfg, MainPass, b1);
      if e2.Some? then (b2, e2)
      else
        var (b3, e3) := LineStep(cfg, MinLine, cfg.showmin, b2);
        if e3.Some? then (b3, e3)
        else
          var (b4, e4) := LineStep(cfg, MaxLine, cfg.showmax, b3);
          if e4.Some? then (b4, e4)
          else PassStep(cfg, PointPass, b4)
  }

  /** The line a `showmin`/`showmax` value asks for, when it names a configured trace. */
  function LineFor(cfg: GraphConfig, role: Role, v: PyVal): (ts: seq<FigTrace>)
  {
    if IsFalse(v) || LineTrace(v).Err? || LineTrace(v).value >= |cfg.traces| then []
    else [NewLine(cfg, LineTrace(v).value, role)]
  }

  /**
   * The figure in insertion order: the bands of every trace with `errors`, the
   * main trace of every trace, the minimum line, the maximum line, and the
   * marker of every trace with `point`.
   */
  function Layout(cfg: GraphConfig): (ts: seq<FigTrace>)
  {
    PassPlan(cfg, BandPass, 0) + PassPlan(cfg, MainPass, 0) +
    LineFor(cfg, MinLine, cfg.showmin) + LineFor(cfg, MaxLine, cfg.showmax) + PassPlan(cfg, PointPass, 0)
  }

  /** Registering the roles of trace k one after the other. */
  method RegisterEach(reg0: Registry, k: nat, roles: seq<Role>) returns (reg: Registry, failure: Option<PyError>)
    ensures (reg, failure) == RegisterRoles(reg0, k, roles)
  {
    reg, failure := reg0, None;
    var i := 0;
    while i < |roles|
      invariant i <= |roles|
      invariant RegisterRoles(reg0, k, roles) == RegisterRoles(reg, k, roles[i..])
    {
      var r := Register(reg, k, roles[i]);
      if r.Err? {
        return reg, Some(r.error);
      }
      assert roles[i..][1..] == roles[i + 1..];
      reg := r.value;
      i := i + 1;
    }
  }

  /**
   * `_add_traces_error`, `_add_traces_main` and `_add_traces_point`: for each
   * configured trace in order, its traces of the pass are added to the figure
   * and their roles registered; the first exception ends the pass.
   */
  method AddPass(cfg: GraphConfig, pass: Pass, fig: Figure, t2id: Registry) returns (reg: Registry, failure: Option<PyError>)
    modifies fig
    ensures (fig.traces, reg, failure) == PassFrom(cfg, pass, old(fig.traces), t2id, 0)
    ensures fig.annots == old(fig.annots) && fig.subplots == old(fig.subplots)
  {
    reg, failure := t2id, None;
    var k := 0;
    while k < |cfg.traces|
      invariant k <= |cfg.traces| && failure.None?
      invariant fig.annots == old(fig.annots) && fig.subplots == old(fig.subplots)
      invariant PassFrom(cfg, pass, fig.traces, reg, k) == PassFrom(cfg, pass, old(fig.traces), t2id, 0)
    {
      ghost var before, reg0 := fig.traces, reg;
      fig.AddTraces(PassTraces(cfg, pass, k));
      reg, failure := RegisterEach(reg, k, PassRoles(pass, cfg.traces[k]));
      assert PassFrom(cfg, pass, before, reg0, k) ==
        if failure.Some? then (fig.traces, reg, failure) else PassFrom(cfg, pass, fig.traces, reg, k + 1);
      if failure.Some? {
        return;
      }
      k := k + 1;
    }
  }

  /**
   * `_add_traces_min` and `_add_traces_max`: the extremum line and its
   * annotation, each added and then registered, as `LineStep` says.
   */
  method AddLine(cfg: GraphConfig, role: Role, v: PyVal, fig: Figure, t2id: Registry, a2id: Registry)
    returns (t: Registry, a: Registry, failure: Option<PyError>)
    modifies fig
    ensures (Build(fig.traces, fig.annots, t, a), failure) == LineStep(cfg, role, v, Build(old(fig.traces), old(fig.annots), t2id, a2id))
    ensures fig.subplots == old(fig.subplots)
  {
    t, a, failure := t2id, a2id, None;
    if IsFalse(v) {
      return;
    }
    var k := LineTrace(v);
    if k.Err? {
      return t, a, Some(k.error);
    }
    if k.value >= |cfg.traces| {
      return t, a, Some(IndexError);
    }
    fig.AddTraces([NewLine(cfg, k.value, role)]);
    var rt := Register(t2id, k.value, role);
    if rt.Err? {
      return t, a, Some(rt.error);
    }
    t := rt.value;
    fig.AddAnnotation(NewAnnot(cfg, k.value, role));
    var ra := Register(a2id, k.value, role);
    if ra.Err? {
      return t, a, Some(ra.error);
    }
    a := ra.value;
  }

  /**
   * `make_flexgraph(G_CFG, g_store)` with the graph's registries passed in and
   * returned: a new figure, then the five steps in their fixed order. On an
   * exception the registries are returned as far as they got.
   */
  method MakeFlexgraph(cfg: GraphConfig, t2id: Registry, a2id: Registry)
    returns (fig: Figure, t: Registry, a: Registry, failure: Option<PyError>)
    ensures fresh(fig) && fig.subplots == HasSubplots(cfg)
    ensures (Build(fig.traces, fig.annots, t, a), failure) == Flex(cfg, t2id, a2id)
  {
    fig := new Figure(HasSubplots(cfg));
    a := a2id;
    t, failure := AddPass(cfg, BandPass, fig, t2id);
    if failure.Some? {
      return;
    }
    t, failure := AddPass(cfg, MainPass, fig, t);
    if failure.Some? {
      return;
    }
    t, a, failure := AddLine(cfg, MinLine, cfg.showmin, fig, t, a);
    if failure.Some? {
      return;
    }
    t, a, failure := AddLine(cfg, MaxLine, cfg.showmax, fig, t, a);
    if failure.Some? {
      return;
    }
    t, failure := AddPass(cfg, PointPass, fig, t);
  }


  /** The slots of the given roles of trace k, in order. */
  function RoleSlots(k: nat, roles: seq<Role>): (s: seq<(nat, Role)>)
    ensures |s| == |roles| && forall i :: 0 <= i < |roles| ==> s[i] == (k, roles[i])
  {
    seq(|roles|, i requires 0 <= i < |roles| => (k, roles[i]))
  }

  /** The registrations of a pass from trace k on, up to the first exception. */
  function RegFrom(cfg: GraphConfig, pass: Pass, reg: Registry, k: nat): (r: (Registry, Option<PyError>))
    decreases |cfg.traces| - k
  {
    if k >= |cfg.traces| then (reg, None)
    else
      var (reg', e) := RegisterRoles(reg, k, PassRoles(pass, cfg.traces[k]));
      if e.Some? then (reg', e) else RegFrom(cfg, pass, reg', k + 1)
  }

  /** The slots of the figure traces a pass adds from trace k on. */
  function PlanSlots(cfg: GraphConfig, pass: Pass, k: nat): (s: seq<(nat, Role)>)
    decreases |cfg.traces| - k
  {
    if k >= |cfg.traces| then [] else RoleSlots(k, PassRoles(pass, cfg.traces[k])) + PlanSlots(cfg, pass, k + 1)
  }

  lemma Assoc<T>(a: seq<T>, b: seq<T>, c: seq<T>)
    ensures a + b + c == a + (b + c)
  {
  }

  /** The plan of a pass from trace k is trace k's traces followed by the plan from k + 1. */
  lemma PlanStep(cfg: GraphConfig, pass: Pass, fig: seq<FigTrace>, k: nat)
    requires k < |cfg.traces|
    ensures fig + PassTraces(cfg, pass, k) + PassPlan(cfg, pass, k + 1) == fig + PassPlan(cfg, pass, k)
  {
    Assoc(fig, PassTraces(cfg, pass, k), PassPlan(cfg, pass, k + 1));
  }

  /** The slots of a figure after one trace's pass traces are added. */
  lemma PassSlots(cfg: GraphConfig, pass: Pass, fig: seq<FigTrace>, k: nat)
    requires k < |cfg.traces|
    ensures Slots(fig + PassTraces(cfg, pass, k)) == Slots(fig) + RoleSlots(k, PassRoles(pass, cfg.traces[k]))
  {
  }

  /** A pass registers as `RegFrom` says and, when nothing raises, adds its plan to the figure. */
  lemma {:induction false} PassFromSplit(cfg: GraphConfig, pass: Pass, fig: seq<FigTrace>, reg: Registry, k: nat)
    ensures (PassFrom(cfg, pass, fig, reg, k).1, PassFrom(cfg, pass, fig, reg, k).2) == RegFrom(cfg, pass, reg, k)
    ensures RegFrom(cfg, pass, reg, k).1.None? ==> PassFrom(cfg, pass, fig, reg, k).0 == fig + PassPlan(cfg, pass, k)
    decreases |cfg.traces| - k
  {
    if k >= |cfg.traces| {
      assert fig + PassPlan(cfg, pass, k) == fig;
    } else {
      var (reg', e) := RegisterRoles(reg, k, PassRoles(pass, cfg.traces[k]));
      if e.None? {
        PassFromSplit(cfg, pass, fig + PassTraces(cfg, pass, k), reg', k + 1);
        PlanStep(cfg, pass, fig, k);
      }
    }
  }

  /** The slots of a pass's plan are its plan slots. */
  lemma {:induction false} PlanSlotsOfPlan(cfg: GraphConfig, pass: Pass, fig: seq<FigTrace>, k: nat)
    ensures Slots(fig + PassPlan(cfg, pass, k)) == Slots(fig) + PlanSlots(cfg, pass, k)
    decreases |cfg.traces| - k
  {
    if k >= |cfg.traces| {
      assert fig + PassPlan(cfg, pass, k) == fig;
    } else {
      PassSlots(cfg, pass, fig, k);
      PlanStep(cfg, pass, fig, k);
      PlanSlotsOfPlan(cfg, pass, fig + PassTraces(cfg, pass, k), k + 1);
      Assoc(Slots(fig), RoleSlots(k, PassRoles(pass, cfg.traces[k])), PlanSlots(cfg, pass, k + 1));
    }
  }

  /**
   * The ids that registering the slots one after the other into `base` hands
   * out when nothing raises: slot p receives id p. (A slot without an entry
   * would raise; it leaves the ids alone here.)
   */
  function IdsAfter(base: seq<RoleIds>, slots: seq<(nat, Role)>): (ids: seq<RoleIds>)
    ensures |ids| == |base|
    decreases |slots|
  {
    if |slots| == 0 then base
    else
      var ids := IdsAfter(base, slots[..|slots| - 1]);
      var k := slots[|slots| - 1].0;
      if k < |ids| then ids[k := ids[k].With(slots[|slots| - 1].1, Some(|slots| - 1))] else ids
  }

  /** The registry after the slots were registered into `base` with the counter at 0. */
  function After(base: seq<RoleIds>, slots: seq<(nat, Role)>): (reg: Registry)
    ensures |reg.ids| == |base| && reg.counter == |slots|
  {
    Registry(IdsAfter(base, slots), |slots|)
  }

  /** The last position holding a slot, if any does. */
  function LastAt(slots: seq<(nat, Role)>, s: (nat, Role)): (r: Option<nat>)
    ensures r.None? <==> s !in slots
    ensures r.Some? ==> r.value < |slots| && slots[r.value] == s && forall q :: r.value < q < |slots| ==> slots[q] != s
    decreases |slots|
  {
    if |slots| == 0 then None
    else if slots[|slots| - 1] == s then Some(|slots| - 1)
    else
      assert slots == slots[..|slots| - 1] + [slots[|slots| - 1]];
      LastAt(slots[..|slots| - 1], s)
  }

  /** A role's id after the registrations is the last position of its slot, or what `base` had when it has none. */
  lemma {:induction false} GetAfter(base: seq<RoleIds>, slots: seq<(nat, Role)>, i: nat, r: Role)
    requires i < |base|
    ensures IdsAfter(base, slots)[i].Get(r) == (if LastAt(slots, (i, r)).Some? then LastAt(slots, (i, r)) else base[i].Get(r))
    decreases |slots|
  {
    if |slots| > 0 {
      GetAfter(base, slots[..|slots| - 1], i, r);
    }
  }

  /** Registering a slot not yet registered into an entry whose role `base` leaves unset hands out the next position. */
  lemma RegisterAfter(base: seq<RoleIds>, slots: seq<(nat, Role)>, k: nat, r: Role)
    requires k < |base| && base[k].Get(r).None? && (k, r) !in slots
    ensures Register(After(base, slots), k, r) == Ok(After(base, slots + [(k, r)]))
  {
    GetAfter(base, slots, k, r);
    assert (slots + [(k, r)])[..|slots|] == slots;
  }

  /** Registering distinct roles of an unused entry, none of them registered yet, hands out the next positions in order. */
  lemma {:induction false} RegisterRolesAfter(base: seq<RoleIds>, slots: seq<(nat, Role)>, k: nat, roles: seq<Role>)
    requires k < |base| && base[k] == NoIds
    requires forall i :: 0 <= i < |roles| ==> (k, roles[i]) !in slots
    requires forall i, j :: 0 <= i < j < |roles| ==> roles[i] != roles[j]
    ensures RegisterRoles(After(base, slots), k, roles) == (After(base, slots + RoleSlots(k, roles)), None)
    decreases |roles|
  {
    if |roles| == 0 {
      assert slots + RoleSlots(k, roles) == slots;
    } else {
      RegisterAfter(base, slots, k, roles[0]);
      var slots' := slots + [(k, roles[0])];
      forall i | 0 <= i < |roles[1..]|
        ensures (k, roles[1..][i]) !in slots'
      {
        assert roles[1..][i] == roles[i + 1];
      }
      RegisterRolesAfter(base, slots', k, roles[1..]);
      assert RoleSlots(k, roles) == [(k, roles[0])] + RoleSlots(k, roles[1..]);
      Assoc(slots, [(k, roles[0])], RoleSlots(k, roles[1..]));
    }
  }

  /** No slot is one the pass from trace k on registers. */
  ghost predicate Clear(cfg: GraphConfig, pass: Pass, slots: seq<(nat, Role)>, k: nat)
  {
    forall p :: 0 <= p < |slots| && k <= slots[p].0 < |cfg.traces| ==> slots[p].1 !in PassRoles(pass, cfg.traces[slots[p].0])
  }

  /** Entries that nothing has been registered in. */
  ghost predicate Unused(base: seq<RoleIds>)
  {
    forall j :: 0 <= j < |base| ==> base[j] == NoIds
  }

  /** A pass from trace k on, over slots it does not collide with, raises nothing and hands out the positions of its plan's slots. */
  lemma {:induction false} RegFromAfter(cfg: GraphConfig, pass: Pass, base: seq<RoleIds>, slots: seq<(nat, Role)>, k: nat)
    requires |cfg.traces| <= |base| && Unused(base) && Clear(cfg, pass, slots, k)
    ensures RegFrom(cfg, pass, After(base, slots), k) == (After(base, slots + PlanSlots(cfg, pass, k)), None)
    decreases |cfg.traces| - k
  {
    if k >= |cfg.traces| {
      assert slots + PlanSlots(cfg, pass, k) == slots;
    } else {
      var roles := PassRoles(pass, cfg.traces[k]);
      ClearRoles(cfg, pass, slots, k);
      RegisterRolesAfter(base, slots, k, roles);
      ClearNext(cfg, pass, slots, k);
      RegFromAfter(cfg, pass, base, slots + RoleSlots(k, roles), k + 1);
      Assoc(slots, RoleSlots(k, roles), PlanSlots(cfg, pass, k + 1));
    }
  }

  /** Slots clear of a pass from trace k on hold none of the roles the pass registers for trace k. */
  lemma ClearRoles(cfg: GraphConfig, pass: Pass, slots: seq<(nat, Role)>, k: nat)
    requires k < |cfg.traces| && Clear(cfg, pass, slots, k)
    ensures var roles := PassRoles(pass, cfg.traces[k]);
            forall i :: 0 <= i < |roles| ==> (k, roles[i]) !in slots
  {
    var roles := PassRoles(pass, cfg.traces[k]);
    forall i | 0 <= i < |roles|
      ensures (k, roles[i]) !in slots
    {
      forall p | 0 <= p < |slots|
        ensures slots[p] != (k, roles[i])
      {
      }
    }
  }

  /** Adding trace k's slots keeps slots clear of the pass from trace k + 1 on. */
  lemma ClearNext(cfg: GraphConfig, pass: Pass, slots: seq<(nat, Role)>, k: nat)
    requires k < |cfg.traces| && Clear(cfg, pass, slots, k)
    ensures Clear(cfg, pass, slots + RoleSlots(k, PassRoles(pass, cfg.traces[k])), k + 1)
  {
    var slots' := slots + RoleSlots(k, PassRoles(pass, cfg.traces[k]));
    forall p | 0 <= p < |slots'| && k + 1 <= slots'[p].0 < |cfg.traces|
      ensures slots'[p].1 !in PassRoles(pass, cfg.traces[slots'[p].0])
    {
      assert p < |slots|;
    }
  }

  /** A whole pass over a figure it does not collide with adds its plan and registers its slots. */
  lemma PassStepAfter(cfg: GraphConfig, pass: Pass, b: Build, base: seq<RoleIds>)
    requires |cfg.traces| <= |base| && Unused(base) && b.t2id == After(base, Slots(b.fig))
    requires Clear(cfg, pass, Slots(b.fig), 0)
    ensures PassStep(cfg, pass, b) ==
              (b.(fig := b.fig + PassPlan(cfg, pass, 0), t2id := After(base, Slots(b.fig + PassPlan(cfg, pass, 0)))), None)
  {
    PassFromSplit(cfg, pass, b.fig, b.t2id, 0);
    RegFromAfter(cfg, pass, base, Slots(b.fig), 0);
    PlanSlotsOfPlan(cfg, pass, b.fig, 0);
  }

  /** Whether a pass registers the role for some traces. */
  predicate PassHas(pass: Pass, r: Role)
  {
    match pass
    case BandPass => r == Lo || r == Hi
    case MainPass => r == Main
    case PointPass => r == Point
  }

  /** Every trace a pass plans from trace k on is the pass's trace of a configured trace k or later. */
  lemma {:induction false} PlanTraces(cfg: GraphConfig, pass: Pass, k: nat)
    ensures forall p :: 0 <= p < |PassPlan(cfg, pass, k)| ==>
              k <= PassPlan(cfg, pass, k)[p].trace < |cfg.traces| &&
              PassPlan(cfg, pass, k)[p].role in PassRoles(pass, cfg.traces[PassPlan(cfg, pass, k)[p].trace]) &&
              PassPlan(cfg, pass, k)[p] == NewTrace(cfg, PassPlan(cfg, pass, k)[p].trace, PassPlan(cfg, pass, k)[p].role)
    decreases |cfg.traces| - k
  {
    if k < |cfg.traces| {
      PlanTraces(cfg, pass, k + 1);
      assert PassPlan(cfg, pass, k) == PassTraces(cfg, pass, k) + PassPlan(cfg, pass, k + 1);
    }
  }

  /** A pass plans no trace with a role it does not register. */
  lemma PlanLacks(cfg: GraphConfig, pass: Pass, r: Role)
    requires !PassHas(pass, r)
    ensures Lacks(PassPlan(cfg, pass, 0), r)
  {
    PlanTraces(cfg, pass, 0);
  }

  /** A figure without any role of a pass does not collide with it. */
  lemma ClearOfLacks(cfg: GraphConfig, pass: Pass, fig: seq<FigTrace>)
    requires forall r :: PassHas(pass, r) ==> Lacks(fig, r)
    ensures Clear(cfg, pass, Slots(fig), 0)
  {
    forall p | 0 <= p < |fig| && fig[p].trace < |cfg.traces|
      ensures fig[p].role !in PassRoles(pass, cfg.traces[fig[p].trace])
    {
      assert !PassHas(pass, fig[p].role);
    }
  }

  /** No trace of the figure has the role. */
  ghost predicate Lacks(fig: seq<FigTrace>, role: Role)
  {
    forall p :: 0 <= p < |fig| ==> fig[p].role != role
  }

  /** No annotation has the role. */
  ghost predicate AnnotsLack(annots: seq<Annot>, role: Role)
  {
    forall p :: 0 <= p < |annots| ==> annots[p].role != role
  }

  /**
   * A line step with an acceptable value, over a figure and annotations
   * without its role, adds the line and its annotation and registers each at
   * its position.
   */
  lemma LineStepAfter(cfg: GraphConfig, role: Role, v: PyVal, b: Build, tbase: seq<RoleIds>, abase: seq<RoleIds>)
    requires LineOk(cfg, v)
    requires |cfg.traces| <= |tbase| && |cfg.traces| <= |abase| && Unused(tbase) && Unused(abase)
    requires b.t2id == After(tbase, Slots(b.fig)) && b.a2id == After(abase, AnnotSlots(b.annots))
    requires Lacks(b.fig, role) && AnnotsLack(b.annots, role)
    ensures LineStep(cfg, role, v, b) ==
              (Build(b.fig + LineFor(cfg, role, v), b.annots + AnnotFor(cfg, role, v),
                     After(tbase, Slots(b.fig + LineFor(cfg, role, v))), After(abase, AnnotSlots(b.annots + AnnotFor(cfg, role, v)))), None)
  {
    if IsFalse(v) {
      assert b.fig + LineFor(cfg, role, v) == b.fig;
      assert b.annots + AnnotFor(cfg, role, v) == b.annots;
    } else {
      var k := LineTrace(v).value;
      assert forall p :: 0 <= p < |Slots(b.fig)| ==> Slots(b.fig)[p] != (k, role);
      assert forall p :: 0 <= p < |AnnotSlots(b.annots)| ==> AnnotSlots(b.annots)[p] != (k, role);
      RegisterAfter(tbase, Slots(b.fig), k, role);
      RegisterAfter(abase, AnnotSlots(b.annots), k, role);
      assert Slots(b.fig + [NewLine(cfg, k, role)]) == Slots(b.fig) + [(k, role)];
      assert AnnotSlots(b.annots + [NewAnnot(cfg, k, role)]) == AnnotSlots(b.annots) + [(k, role)];
    }
  }

  /** `showmin`/`showmax` is False or ends in the digit of a configured trace. */
  predicate LineOk(cfg: GraphConfig, v: PyVal)
  {
    IsFalse(v) || (LineTrace(v).Ok? && LineTrace(v).value < |cfg.traces|)
  }

  /** `showmin`/`showmax` asks for the line of trace k. */
  predicate Shows(v: PyVal, k: nat)
  {
    !IsFalse(v) && LineTrace(v) == Ok(k)
  }

  /** The annotation a `showmin`/`showmax` value asks for, when it names a configured trace. */
  function AnnotFor(cfg: GraphConfig, role: Role, v: PyVal): (as_: seq<Annot>)
  {
    if IsFalse(v) || LineTrace(v).Err? || LineTrace(v).value >= |cfg.traces| then []
    else [NewAnnot(cfg, LineTrace(v).value, role)]
  }

  /** The annotations in insertion order: the minimum's, then the maximum's. */
  function AnnotLayout(cfg: GraphConfig): (as_: seq<Annot>)
  {
    AnnotFor(cfg, MinLine, cfg.showmin) + AnnotFor(cfg, MaxLine, cfg.showmax)
  }

  /** The band pass on a registry nothing has been registered in. */
  lemma FlexBand(cfg: GraphConfig, t2id: Registry, a2id: Registry)
    requires Fresh(t2id) && |cfg.traces| <= |t2id.ids|
    ensures var bands := PassPlan(cfg, BandPass, 0);
            PassStep(cfg, BandPass, Build([], [], t2id, a2id)) == (Build(bands, [], After(t2id.ids, Slots(bands)), a2id), None)
  {
    assert Unused(t2id.ids);
    var b0 := Build([], [], t2id, a2id);
    assert t2id == After(t2id.ids, Slots([]));
    PassStepAfter(cfg, BandPass, b0, t2id.ids);
    assert b0.fig + PassPlan(cfg, BandPass, 0) == PassPlan(cfg, BandPass, 0);
  }

  /** The main pass after the band pass. */
  lemma FlexMain(cfg: GraphConfig, b1: Build, base: seq<RoleIds>)
    requires |cfg.traces| <= |base| && Unused(base)
    requires b1.fig == PassPlan(cfg, BandPass, 0) && b1.annots == [] && b1.t2id == After(base, Slots(b1.fig))
    ensures var fig := PassPlan(cfg, BandPass, 0) + PassPlan(cfg, MainPass, 0);
            PassStep(cfg, MainPass, b1) == (Build(fig, [], After(base, Slots(fig)), b1.a2id), None)
  {
    PlanLacks(cfg, BandPass, Main);
    ClearOfLacks(cfg, MainPass, b1.fig);
    PassStepAfter(cfg, MainPass, b1, base);
  }

  /** The band and main passes on registries nothing has been registered in. */
  lemma FlexFront(cfg: GraphConfig, t2id: Registry, a2id: Registry)
    requires Fresh(t2id) && |cfg.traces| <= |t2id.ids|
    ensures var s1 := PassStep(cfg, BandPass, Build([], [], t2id, a2id));
            var s2 := PassStep(cfg, MainPass, s1.0);
            var fig := PassPlan(cfg, BandPass, 0) + PassPlan(cfg, MainPass, 0);
            s1.1.None? && s2.1.None? && s2.0 == Build(fig, [], After(t2id.ids, Slots(fig)), a2id)
  {
    FlexBand(cfg, t2id, a2id);
    assert Unused(t2id.ids);
    FlexMain(cfg, PassStep(cfg, BandPass, Build([], [], t2id, a2id)).0, t2id.ids);
  }

  /** A figure lacks a role when both of its parts do. */
  lemma LacksConcat(a: seq<FigTrace>, b: seq<FigTrace>, r: Role)
    requires Lacks(a, r) && Lacks(b, r)
    ensures Lacks(a + b, r)
  {
  }

  /** The figure after the band and main passes lacks the roles still to come. */
  lemma FrontLacks(cfg: GraphConfig)
    ensures var fig := PassPlan(cfg, BandPass, 0) + PassPlan(cfg, MainPass, 0);
            Lacks(fig, MinLine) && Lacks(fig, MaxLine) && Lacks(fig, Point)
  {
    var bands, mains := PassPlan(cfg, BandPass, 0), PassPlan(cfg, MainPass, 0);
    PlanLacks(cfg, BandPass, MinLine);
    PlanLacks(cfg, BandPass, MaxLine);
    PlanLacks(cfg, BandPass, Point);
    PlanLacks(cfg, MainPass, MinLine);
    PlanLacks(cfg, MainPass, MaxLine);
    PlanLacks(cfg, MainPass, Point);
    LacksConcat(bands, mains, MinLine);
    LacksConcat(bands, mains, MaxLine);
    LacksConcat(bands, mains, Point);
  }

  /** The minimum's line step after the band and main passes. */
  lemma FlexMin(cfg: GraphConfig, b2: Build, tbase: seq<RoleIds>, abase: seq<RoleIds>)
    requires |cfg.traces| <= |tbase| && |cfg.traces| <= |abase| && Unused(tbase) && Unused(abase)
    requires LineOk(cfg, cfg.showmin)
    requires b2.fig == PassPlan(cfg, BandPass, 0) + PassPlan(cfg, MainPass, 0) && b2.annots == []
    requires b2.t2id == After(tbase, Slots(b2.fig)) && b2.a2id == After(abase, [])
    ensures var fig := b2.fig + LineFor(cfg, MinLine, cfg.showmin);
            var annots := AnnotFor(cfg, MinLine, cfg.showmin);
            LineStep(cfg, MinLine, cfg.showmin, b2) ==
              (Build(fig, annots, After(tbase, Slots(fig)), After(abase, AnnotSlots(annots))), None) &&
            Lacks(fig, MaxLine) && Lacks(fig, Point) && AnnotsLack(annots, MaxLine)
  {
    var lmin := LineFor(cfg, MinLine, cfg.showmin);
    FrontLacks(cfg);
    assert AnnotSlots(b2.annots) == [];
    LineStepAfter(cfg, MinLine, cfg.showmin, b2, tbase, abase);
    LacksConcat(b2.fig, lmin, MaxLine);
    LacksConcat(b2.fig, lmin, Point);
    assert b2.annots + AnnotFor(cfg, MinLine, cfg.showmin) == AnnotFor(cfg, MinLine, cfg.showmin);
  }

  /** The maximum's line step after the minimum's. */
  lemma FlexMax(cfg: GraphConfig, b3: Build, fig3: seq<FigTrace>, tbase: seq<RoleIds>, abase: seq<RoleIds>)
    requires |cfg.traces| <= |tbase| && |cfg.traces| <= |abase| && Unused(tbase) && Unused(abase)
    requires LineOk(cfg, cfg.showmax)
    requires Lacks(fig3, MaxLine) && Lacks(fig3, Point) && AnnotsLack(AnnotFor(cfg, MinLine, cfg.showmin), MaxLine)
    requires b3 == Build(fig3, AnnotFor(cfg, MinLine, cfg.showmin), After(tbase, Slots(fig3)),
                         After(abase, AnnotSlots(AnnotFor(cfg, MinLine, cfg.showmin))))
    ensures var fig := fig3 + LineFor(cfg, MaxLine, cfg.showmax);
            LineStep(cfg, MaxLine, cfg.showmax, b3) ==
              (Build(fig, AnnotLayout(cfg), After(tbase, Slots(fig)), After(abase, AnnotSlots(AnnotLayout(cfg)))), None) &&
            Lacks(fig, Point)
  {
    LineStepAfter(cfg, MaxLine, cfg.showmax, b3, tbase, abase);
    LacksConcat(fig3, LineFor(cfg, MaxLine, cfg.showmax), Point);
  }

  /** Both line steps after the band and main passes. */
  lemma FlexLines(cfg: GraphConfig, b2: Build, tbase: seq<RoleIds>, abase: seq<RoleIds>)
    requires |cfg.traces| <= |tbase| && |cfg.traces| <= |abase| && Unused(tbase) && Unused(abase)
    requires LineOk(cfg, cfg.showmin) && LineOk(cfg, cfg.showmax)
    requires b2.fig == PassPlan(cfg, BandPass, 0) + PassPlan(cfg, MainPass, 0) && b2.annots == []
    requires b2.t2id == After(tbase, Slots(b2.fig)) && b2.a2id == After(abase, [])
    ensures var s3 := LineStep(cfg, MinLine, cfg.showmin, b2);
            var s4 := LineStep(cfg, MaxLine, cfg.showmax, s3.0);
            var fig := b2.fig + LineFor(cfg, MinLine, cfg.showmin) + LineFor(cfg, MaxLine, cfg.showmax);
            s3.1.None? && s4.1.None? && Lacks(fig, Point) &&
            s4.0 == Build(fig, AnnotLayout(cfg), After(tbase, Slots(fig)), After(abase, AnnotSlots(AnnotLayout(cfg))))
  {
    FlexMin(cfg, b2, tbase, abase);
    var b3 := LineStep(cfg, MinLine, cfg.showmin, b2).0;
    FlexMax(cfg, b3, b2.fig + LineFor(cfg, MinLine, cfg.showmin), tbase, abase);
  }

  /** The two line steps and the marker pass after the band and main passes. */
  lemma FlexBack(cfg: GraphConfig, b2: Build, tbase: seq<RoleIds>, abase: seq<RoleIds>)
    requires |cfg.traces| <= |tbase| && |cfg.traces| <= |abase| && Unused(tbase) && Unused(abase)
    requires LineOk(cfg, cfg.showmin) && LineOk(cfg, cfg.showmax)
    requires b2.fig == PassPlan(cfg, BandPass, 0) + PassPlan(cfg, MainPass, 0) && b2.annots == []
    requires b2.t2id == After(tbase, Slots(b2.fig)) && b2.a2id == After(abase, [])
    ensures var (b3, e3) := LineStep(cfg, MinLine, cfg.showmin, b2);
            var (b4, e4) := LineStep(cfg, MaxLine, cfg.showmax, b3);
            e3.None? && e4.None? &&
            PassStep(cfg, PointPass, b4) ==
              (Build(Layout(cfg), AnnotLayout(cfg), After(tbase, Slots(Layout(cfg))), After(abase, AnnotSlots(AnnotLayout(cfg)))), None)
  {
    FlexLines(cfg, b2, tbase, abase);
    var b3 := LineStep(cfg, MinLine, cfg.showmin, b2).0;
    var b4 := LineStep(cfg, MaxLine, cfg.showmax, b3).0;
    ClearOfLacks(cfg, PointPass, b4.fig);
    PassStepAfter(cfg, PointPass, b4, tbase);
  }

  /**
   * `make_flexgraph` with registries nothing has been registered in and
   * acceptable `showmin` and `showmax` raises nothing, builds `Layout` and
   * `AnnotLayout`, and hands every trace and every annotation the id of its
   * position.
   */
  lemma FlexBuilds(cfg: GraphConfig, t2id: Registry, a2id: Registry)
    requires Fresh(t2id) && Fresh(a2id) && |cfg.traces| <= |t2id.ids| && |cfg.traces| <= |a2id.ids|
    requires LineOk(cfg, cfg.showmin) && LineOk(cfg, cfg.showmax)
    ensures Flex(cfg, t2id, a2id) ==
              (Build(Layout(cfg), AnnotLayout(cfg), After(t2id.ids, Slots(Layout(cfg))), After(a2id.ids, AnnotSlots(AnnotLayout(cfg)))), None)
  {
    FlexFront(cfg, t2id, a2id);
    var b1 := PassStep(cfg, BandPass, Build([], [], t2id, a2id)).0;
    var b2 := PassStep(cfg, MainPass, b1).0;
    assert a2id == After(a2id.ids, []);
    FlexBack(cfg, b2, t2id.ids, a2id.ids);
  }
}
