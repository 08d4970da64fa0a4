/**
 * A Dash `Patch` as the list of edits it records, in the order they were made,
 * and what a list of edits does to one data field of one figure trace.
 */
module Patches {
  import opened Py

  /** The two data arrays of a trace. */
  datatype Field = X | Y

  /** The two autorange limits of a y axis. */
  datatype Bound = MinAllowed | MaxAllowed

  /**
   * One recorded edit. Trace and annotation positions are the registry's ids,
   * which are None for a role that was never registered; Python records such a
   * key all the same.
   */
  datatype PatchOp =
    | Extend(trace: Option<nat>, field: Field, values: seq<real>)   // `["data"][i][f].extend(values)`
    | Assign(trace: Option<nat>, field: Field, values: seq<real>)   // `["data"][i][f] = values`
    | AssignLevel(trace: Option<nat>, level: Ext)                   // `["data"][i]["y"] = [level] * 2`
    | AnnotText(annot: Option<nat>, caption: string, value: Ext)    // the annotation text: caption and value
    | AnnotY(annot: Option<nat>, value: Ext)                        // `["layout"]["annotations"][i]["y"] = value`
    | AnnotVisible(annot: Option<nat>, visible: bool)               // `["layout"]["annotations"][i]["visible"] = visible`
    | AxisLimit(axis: nat, bound: Bound, limit: real)               // `["layout"]["yaxis<n>"]["autorangeoptions"][bound] = value`

  type Patch = seq<PatchOp>

  /** Whether an edit rewrites data field f of trace id. */
  predicate Touches(op: PatchOp, id: nat, f: Field)
  {
    (op.Extend? || op.Assign?) && op.trace == Some(id) && op.field == f
  }

  /**
   * What the data edits of p make of field f of trace id, starting from cur:
   * an extension appends, an assignment replaces, other edits leave it alone.
   */
  function Apply(p: Patch, id: nat, f: Field, cur: seq<real>): (r: seq<real>)
    ensures (forall k :: 0 <= k < |p| ==> !Touches(p[k], id, f)) ==> r == cur
    ensures |p| > 0 && Touches(p[|p| - 1], id, f) && p[|p| - 1].Assign? ==> r == p[|p| - 1].values
  {
    if |p| == 0 then cur
    else
      var prev := Apply(p[..|p| - 1], id, f, cur);
      assert forall k :: 0 <= k < |p| - 1 ==> p[..|p| - 1][k] == p[k];
      var op := p[|p| - 1];
      if Touches(op, id, f) then
        if op.Extend? then prev + op.values else op.values
      else prev
  }

  /** Applying two patches one after the other is applying their concatenation. */
  lemma {:induction false} ApplyConcat(p: Patch, q: Patch, id: nat, f: Field, cur: seq<real>)
    ensures Apply(p + q, id, f, cur) == Apply(q, id, f, Apply(p, id, f, cur))
    decreases |q|
  {
    if |q| > 0 {
      var q' := q[..|q| - 1];
      assert (p + q)[..|p + q| - 1] == p + q';
      ApplyConcat(p, q', id, f, cur);
    } else {
      assert p + q == p;
    }
  }

  /** The values of the edits of p that touch field f of trace id, concatenated in order. */
  function Extensions(p: Patch, id: nat, f: Field): seq<real>
  {
    if |p| == 0 then []
    else
      var op := p[|p| - 1];
      Extensions(p[..|p| - 1], id, f) + (if Touches(op, id, f) then op.values else [])
  }

  /**
   * A patch whose edits of field f of trace id are all extensions: the field
   * grows by their values, in order.
   */
  lemma {:induction false} ApplyExtensions(p: Patch, id: nat, f: Field, cur: seq<real>)
    requires forall k :: 0 <= k < |p| && Touches(p[k], id, f) ==> p[k].Extend?
    ensures Apply(p, id, f, cur) == cur + Extensions(p, id, f)
    decreases |p|
  {
    if |p| > 0 {
      var q := p[..|p| - 1];
      assert forall k :: 0 <= k < |q| ==> q[k] == p[k];
      ApplyExtensions(q, id, f, cur);
      var op := p[|p| - 1];
      if Touches(op, id, f) {
        assert cur + Extensions(q, id, f) + op.values == cur + (Extensions(q, id, f) + op.values);
      } else {
        assert Extensions(q, id, f) + [] == Extensions(q, id, f);
      }
    }
  }

  /** Extending x by a and y by b: each field grows by its own values. */
  lemma ExtendBoth(a: seq<real>, b: seq<real>, id: nat, cur: seq<real>)
    ensures Apply([Extend(Some(id), X, a), Extend(Some(id), Y, b)], id, X, cur) == cur + a
    ensures Apply([Extend(Some(id), X, a), Extend(Some(id), Y, b)], id, Y, cur) == cur + b
  {
    var p := [Extend(Some(id), X, a), Extend(Some(id), Y, b)];
    assert p[..1] == [Extend(Some(id), X, a)] && p[..1][..0] == [];
  }
}
