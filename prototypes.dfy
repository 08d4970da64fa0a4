/**
 * The two prototypes of the patched refresh callback.
 *
 * The first serves three cards from one trace store and keeps as checkpoint
 * the number of raw samples already drawn. It computes a downsampled series
 * and then overwrites it with the raw samples, so it always draws raw data.
 *
 * The second serves one card. Its checkpoint is the index of the last point
 * drawn: the last raw sample, or the last point of the downsampling grid that
 * the raw data fully covers.
 */
module Prototypes {
  import opened Py
  import opened Interp
  import opened Patches

  /** The global store: raw samples appended by the producer thread, and the fixed downsampling grid. */
  datatype Store = Store(x: seq<real>, y: seq<real>, xDown: seq<real>)

  /** What a callback with three figure outputs and a checkpoint output returns. */
  datatype CardsUpdate = NoUpdate | Cards(a: Patch, b: Patch, c: Patch, chkp: int)

  /** What the one-card callback returns: its patch, and the new checkpoint or `no_update` (None). */
  datatype CardUpdate = CardUpdate(figure: Patch, chkp: Option<int>)

  /** Extending main trace 0 by the samples from position `drawn` on. */
  function MainEdits(xs: seq<real>, ys: seq<real>, drawn: int): (p: Patch)
  {
    [Extend(Some(0), X, PySlice(xs, drawn, |xs|)), Extend(Some(0), Y, PySlice(ys, drawn, |ys|))]
  }

  /** Moving end point trace 1 to the newest sample. */
  function EndEdits(xs: seq<real>, ys: seq<real>): (p: Patch)
    requires |xs| > 0 && |ys| > 0
  {
    [Assign(Some(1), X, [xs[|xs| - 1]]), Assign(Some(1), Y, [ys[|ys| - 1]])]
  }

  /**
   * Moving best line trace 2 and annotation 0 to the level lo, and the y
   * axis limits to one unit below lo and above hi.
   */
  function BestEdits(lo: real, hi: real): (p: Patch)
  {
    [AssignLevel(Some(2), Fin(lo)), AnnotText(Some(0), "lowest", Fin(lo)), AnnotY(Some(0), Fin(lo)),
     AxisLimit(1, MinAllowed, lo - 1.0), AxisLimit(1, MaxAllowed, hi + 1.0)]
  }

  /**
   * The edits of a count-checkpoint refresh that draws the samples xs, ys
   * (equally long, not empty) when `drawn` of them are already drawn: main
   * trace 0 is extended, end point trace 1 moves to the newest sample, best
   * line trace 2 and annotation 0 go to the lowest y so far, and the y axis
   * limits are one unit outside the values so far.
   */
  function CountPatch(xs: seq<real>, ys: seq<real>, drawn: int): (p: Patch)
    requires |xs| == |ys| > 0
  {
    MainEdits(xs, ys, drawn) + EndEdits(xs, ys) + BestEdits(Min(ys), Max(ys))
  }

  /** The best edits recorded in the refresh's three statements are the five edits in order. */
  lemma BestEditsRecorded(front: Patch, lo: real, hi: real, lo': real)
    requires lo' == lo
    ensures front + [AssignLevel(Some(2), Fin(lo))] + [AnnotText(Some(0), "lowest", Fin(lo)), AnnotY(Some(0), Fin(lo))] +
              [AxisLimit(1, MinAllowed, lo' - 1.0), AxisLimit(1, MaxAllowed, hi + 1.0)] == front + BestEdits(lo, hi)
  {
  }

  /** Edits that touch no data field leave every field as it is. */
  lemma BestEditsKeepData(lo: real, hi: real, id: nat, f: Field, cur: seq<real>)
    ensures Apply(BestEdits(lo, hi), id, f, cur) == cur
  {
    var p := BestEdits(lo, hi);
    assert forall k :: 0 <= k < |p| ==> !Touches(p[k], id, f);
  }

  /** The end point edits replace trace 1's fields and leave the others alone. */
  lemma EndEditsDraw(xs: seq<real>, ys: seq<real>, id: nat, cur: seq<real>)
    requires |xs| > 0 && |ys| > 0
    ensures Apply(EndEdits(xs, ys), id, X, cur) == if id == 1 then [xs[|xs| - 1]] else cur
    ensures Apply(EndEdits(xs, ys), id, Y, cur) == if id == 1 then [ys[|ys| - 1]] else cur
  {
    var p := EndEdits(xs, ys);
    assert p[..1] == [p[0]] && p[..1][..0] == [];
  }

  /** The main edits extend trace 0's fields and leave the others alone. */
  lemma MainEditsDraw(xs: seq<real>, ys: seq<real>, drawn: int, id: nat, cur: seq<real>)
    ensures Apply(MainEdits(xs, ys, drawn), id, X, cur) == if id == 0 then cur + PySlice(xs, drawn, |xs|) else cur
    ensures Apply(MainEdits(xs, ys, drawn), id, Y, cur) == if id == 0 then cur + PySlice(ys, drawn, |ys|) else cur
  {
    if id == 0 {
      ExtendBoth(PySlice(xs, drawn, |xs|), PySlice(ys, drawn, |ys|), 0, cur);
    } else {
      var p := MainEdits(xs, ys, drawn);
      assert forall k :: 0 <= k < |p| ==> !Touches(p[k], id, X) && !Touches(p[k], id, Y);
    }
  }

  /** What a count-checkpoint refresh does to data field f of trace id. */
  lemma CountPatchApply(xs: seq<real>, ys: seq<real>, drawn: int, id: nat, f: Field, cur: seq<real>)
    requires |xs| == |ys| > 0
    ensures Apply(CountPatch(xs, ys, drawn), id, f, cur) ==
              Apply(EndEdits(xs, ys), id, f, Apply(MainEdits(xs, ys, drawn), id, f, cur))
  {
    var a, b, c := MainEdits(xs, ys, drawn), EndEdits(xs, ys), BestEdits(Min(ys), Max(ys));
    ApplyConcat(a + b, c, id, f, cur);
    ApplyConcat(a, b, id, f, cur);
    BestEditsKeepData(Min(ys), Max(ys), id, f, Apply(a + b, id, f, cur));
  }

  /** The samples of field f. */
  function Samples(xs: seq<real>, ys: seq<real>, f: Field): seq<real>
  {
    if f == X then xs else ys
  }

  /** Main trace 0 of a count-checkpoint refresh: the new samples are appended. */
  lemma CountPatchMain(xs: seq<real>, ys: seq<real>, drawn: int, f: Field, cur: seq<real>)
    requires |xs| == |ys| > 0
    ensures Apply(CountPatch(xs, ys, drawn), 0, f, cur) == cur + PySlice(Samples(xs, ys, f), drawn, |xs|)
  {
    CountPatchApply(xs, ys, drawn, 0, f, cur);
    MainEditsDraw(xs, ys, drawn, 0, cur);
    EndEditsDraw(xs, ys, 0, Apply(MainEdits(xs, ys, drawn), 0, f, cur));
  }

  /** End point trace 1 of a count-checkpoint refresh: replaced by the newest sample. */
  lemma CountPatchEnd(xs: seq<real>, ys: seq<real>, drawn: int, f: Field, cur: seq<real>)
    requires |xs| == |ys| > 0
    ensures Apply(CountPatch(xs, ys, drawn), 1, f, cur) == if f == X then [xs[|xs| - 1]] else [ys[|ys| - 1]]
  {
    CountPatchApply(xs, ys, drawn, 1, f, cur);
    MainEditsDraw(xs, ys, drawn, 1, cur);
    EndEditsDraw(xs, ys, 1, cur);
  }

  /**
   * A count-checkpoint refresh keeps the figure in step with the store: if
   * the main trace shows the first `drawn` samples, afterwards it shows all of
   * them, and the end point shows the newest one whatever it showed before.
   */
  lemma CountPatchDraws(xs: seq<real>, ys: seq<real>, drawn: nat, curX: seq<real>, curY: seq<real>)
    requires |xs| == |ys| > drawn
    ensures Apply(CountPatch(xs, ys, drawn), 0, X, xs[..drawn]) == xs
    ensures Apply(CountPatch(xs, ys, drawn), 0, Y, ys[..drawn]) == ys
    ensures Apply(CountPatch(xs, ys, drawn), 1, X, curX) == [xs[|xs| - 1]]
    ensures Apply(CountPatch(xs, ys, drawn), 1, Y, curY) == [ys[|ys| - 1]]
  {
    CountPatchMain(xs, ys, drawn, X, xs[..drawn]);
    CountPatchMain(xs, ys, drawn, Y, ys[..drawn]);
    assert xs[..drawn] + xs[drawn..] == xs && ys[..drawn] + ys[drawn..] == ys;
    CountPatchEnd(xs, ys, drawn, X, curX);
    CountPatchEnd(xs, ys, drawn, Y, curY);
  }

  /**
   * The bests a count-checkpoint refresh shows: the best line, the annotation
   * and its caption sit at the lowest y, which is a sample, and every sample
   * lies strictly inside the new y axis limits, the lowest and highest one
   * unit away from them.
   */
  lemma CountPatchBounds(xs: seq<real>, ys: seq<real>, drawn: int)
    requires |xs| == |ys| > 0
    ensures |CountPatch(xs, ys, drawn)| == 9
    ensures var p := CountPatch(xs, ys, drawn);
            p[4].AssignLevel? && p[4].trace == Some(2) && p[4].level.Fin? &&
            p[5] == AnnotText(Some(0), "lowest", p[4].level) && p[6] == AnnotY(Some(0), p[4].level) &&
            p[4].level.v in ys && (forall k :: 0 <= k < |ys| ==> p[4].level.v <= ys[k])
    ensures var p := CountPatch(xs, ys, drawn);
            p[7] == AxisLimit(1, MinAllowed, p[7].limit) && p[8] == AxisLimit(1, MaxAllowed, p[8].limit) &&
            p[7].limit + 1.0 in ys && p[8].limit - 1.0 in ys &&
            forall k :: 0 <= k < |ys| ==> p[7].limit < ys[k] < p[8].limit
  {
  }

  /**
   * Successive count-checkpoint refreshes over a store that only grows draw
   * exactly the store: from an empty main trace, a refresh with 0 drawn
   * followed by one with the first refresh's checkpoint leaves all the later
   * samples in the main trace.
   */
  lemma RefreshesFollowStore(xs1: seq<real>, ys1: seq<real>, xs2: seq<real>, ys2: seq<real>)
    requires |xs1| == |ys1| > 0 && |xs2| == |ys2| > |xs1|
    requires xs2[..|xs1|] == xs1 && ys2[..|ys1|] == ys1
    ensures Apply(CountPatch(xs1, ys1, 0) + CountPatch(xs2, ys2, |xs1|), 0, X, []) == xs2
    ensures Apply(CountPatch(xs1, ys1, 0) + CountPatch(xs2, ys2, |xs1|), 0, Y, []) == ys2
  {
    var p, q := CountPatch(xs1, ys1, 0), CountPatch(xs2, ys2, |xs1|);
    assert xs1[..0] == [] && ys1[..0] == [];
    CountPatchDraws(xs1, ys1, 0, [], []);
    CountPatchDraws(xs2, ys2, |xs1|, [], []);
    ApplyConcat(p, q, 0, X, []);
    ApplyConcat(p, q, 0, Y, []);
  }

  /**
   * The first prototype. An empty store gives `no_update`. Otherwise the
   * downsampled series is computed (np.interp raises ValueError when fewer y
   * than x samples are stored) and then replaced by the raw samples, so the
   * new checkpoint is the number of raw samples, and all three cards get the
   * same patch: the refresh edits when that number exceeds the old
   * checkpoint, and no edit otherwise.
   */
  method UpdateCountPrototype(store: Store, oldChkp: int) returns (r: Result<CardsUpdate>)
    ensures |store.x| == 0 ==> r == Ok(NoUpdate)
    ensures |store.x| > 0 ==> (r.Err? <==> |store.y| < |store.x|)
    ensures r.Err? ==> r.error == ValueError
    ensures |store.x| > 0 && r.Ok? ==>
              var n := |store.x|;
              var p := if n > oldChkp then CountPatch(store.x, store.y[..n], oldChkp) else [];
              r == Ok(Cards(p, p, p, n))
  {
    if |store.x| <= 0 {
      return Ok(NoUpdate);
    }
    var idxx := |store.x| - 1;
    var lastidx := SearchsortedMinusOne(store.xDown, store.x[idxx]);
    var xDown := store.xDown;
    var yDown :- InterpAll(PySlice(xDown, 0, lastidx + 1), PySlice(store.x, 0, idxx + 1), PySlice(store.y, 0, idxx + 1));
    xDown := PySlice(store.x, 0, idxx + 1);
    yDown := PySlice(store.y, 0, idxx + 1);
    assert xDown == store.x && yDown == store.y[..idxx + 1];
    var newChkp := |yDown|;
    assert newChkp == |store.x| == |xDown|;
    var ptch: Patch := [];
    if newChkp > oldChkp {
      ptch := ptch + [Extend(Some(0), X, PySlice(xDown, oldChkp, newChkp)), Extend(Some(0), Y, PySlice(yDown, oldChkp, newChkp))];
      ptch := ptch + [Assign(Some(1), X, [xDown[newChkp - 1]]), Assign(Some(1), Y, [yDown[newChkp - 1]])];
      assert ptch == MainEdits(xDown, yDown, oldChkp) + EndEdits(xDown, yDown);
      ghost var front := ptch;
      assert yDown[..newChkp] == yDown;
      var newMin := Min(yDown[..newChkp]);
      ptch := ptch + [AssignLevel(Some(2), Fin(newMin))];
      ptch := ptch + [AnnotText(Some(0), "lowest", Fin(newMin)), AnnotY(Some(0), Fin(newMin))];
      newMin := Min(yDown[..newChkp]);
      var newMax := Max(yDown[..newChkp]);
      ptch := ptch + [AxisLimit(1, MinAllowed, newMin - 1.0), AxisLimit(1, MaxAllowed, newMax + 1.0)];
      BestEditsRecorded(front, Min(yDown[..newChkp]), newMax, newMin);
    }
    return Ok(Cards(ptch, ptch, ptch, newChkp));
  }

  /** Dropping the first j elements, all of them at or below q's latest cover, shifts the search by j. */
  lemma {:induction false} LastAtMostShift(s: seq<real>, q: real, j: nat, n: nat)
    requires j < n <= |s| && s[j] <= q
    ensures LastAtMost(s[j..], q, n - j) + j == LastAtMost(s, q, n)
    decreases n
  {
    assert s[j..][n - 1 - j] == s[n - 1];
    if s[n - 1] > q {
      LastAtMostShift(s, q, j, n - 1);
    }
  }

  /**
   * Interpolating at q on the raw points from index j on gives what the
   * whole raw series gives, once the point at j is at or below q: the points
   * before j are never needed.
   */
  lemma WindowInterp(xp: seq<real>, fp: seq<real>, j: nat, q: real)
    requires |xp| == |fp| && j < |xp| && Ascending(xp) && xp[j] <= q
    ensures InterpAt(xp[j..], fp[j..], q) == InterpAt(xp, fp, q)
  {
    assert xp[0] <= xp[j];
    WindowInterpFrom(xp, fp, j, q);
  }

  /** WindowInterp once the first raw point is known to lie at or below q. */
  lemma WindowInterpFrom(xp: seq<real>, fp: seq<real>, j: nat, q: real)
    requires |xp| == |fp| && j < |xp| && xp[0] <= q && xp[j] <= q
    ensures InterpAt(xp[j..], fp[j..], q) == InterpAt(xp, fp, q)
  {
    var wx, wf := xp[j..], fp[j..];
    var last := |xp| - 1;
    assert wx[last - j] == xp[last] && wf[last - j] == fp[last];
    assert wx[0] == xp[j];
    if q <= xp[last] {
      LastAtMostShift(xp, q, j, |xp|);
      var i := IdxNextSmaller(xp, q);
      assert IdxNextSmaller(wx, q) == i - j;
      assert wx[i - j] == xp[i] && wf[i - j] == fp[i];
      if i < last {
        assert wx[i - j + 1] == xp[i + 1] && wf[i - j + 1] == fp[i + 1];
      }
    }
  }

  /** The raw branch's edits: main trace 0 extended by the raw samples after index `drawn`. */
  function RawEdits(s: Store, drawn: int): (p: Patch)
  {
    [Extend(Some(0), X, PySlice(s.x, drawn + 1, |s.x|)), Extend(Some(0), Y, PySlice(s.y, drawn + 1, |s.x|))]
  }

  /**
   * The downsampled branch's edits for the grid points after `drawn` up to
   * `next`: the grid value after `drawn` must exist (IndexError otherwise);
   * the raw window starts at the latest raw point at or below it; np.interp
   * raises ValueError on a window whose x and y differ in length; main trace
   * 0 is extended by the grid points and their interpolated values, and end
   * point trace 1 moves to the last of them (IndexError when there is none).
   */
  function GridEdits(s: Store, drawn: int, next: nat): (r: Result<Patch>)
    requires |s.x| > 0
  {
    var start :- PyIndex(s.xDown, drawn + 1);
    var oldest := IdxNextSmaller(s.x, start);
    var grid := PySlice(s.xDown, drawn + 1, next + 1);
    var ys :- InterpAll(grid, PySlice(s.x, oldest, |s.x|), PySlice(s.y, oldest, |s.x|));
    var endX :- PyIndex(s.xDown, next);
    var endY :- PyIndex(ys, -1);
    Ok([Extend(Some(0), X, grid), Extend(Some(0), Y, ys), Assign(Some(1), X, [endX]), Assign(Some(1), Y, [endY])])
  }

  /** The grid edits when every step of them succeeds, as the refresh records them one by one. */
  lemma GridEditsOk(s: Store, drawn: int, next: nat, start: real, ys: seq<real>, endX: real, endY: real)
    requires |s.x| > 0 && PyIndex(s.xDown, drawn + 1) == Ok(start)
    requires var oldest := IdxNextSmaller(s.x, start);
             InterpAll(PySlice(s.xDown, drawn + 1, next + 1), PySlice(s.x, oldest, |s.x|), PySlice(s.y, oldest, |s.x|)) == Ok(ys)
    requires PyIndex(s.xDown, next) == Ok(endX) && PyIndex(ys, -1) == Ok(endY)
    ensures GridEdits(s, drawn, next) ==
              Ok([] + [Extend(Some(0), X, PySlice(s.xDown, drawn + 1, next + 1))] + [Extend(Some(0), Y, ys)] +
                 [Assign(Some(1), X, [endX])] + [Assign(Some(1), Y, [endY])])
  {
    var grid := PySlice(s.xDown, drawn + 1, next + 1);
    assert [] + [Extend(Some(0), X, grid)] + [Extend(Some(0), Y, ys)] + [Assign(Some(1), X, [endX])] + [Assign(Some(1), Y, [endY])]
        == [Extend(Some(0), X, grid), Extend(Some(0), Y, ys), Assign(Some(1), X, [endX]), Assign(Some(1), Y, [endY])];
  }

  /**
   * The second prototype's result. Its downsampling switch is a constant in
   * the code; here it is the parameter `downsample`. The checkpoint is the
   * index of the newest raw sample, or of the newest grid point the raw data
   * covers; no new point gives an empty patch and `no_update`.
   */
  function IndexUpdate(s: Store, drawn: int, downsample: bool): (r: Result<CardUpdate>)
    ensures r.Ok? && r.value.chkp.None? ==> r.value.figure == []
    ensures r.Ok? && r.value.chkp.Some? ==> r.value.chkp.value > drawn && |r.value.figure| > 0
    ensures |s.x| == 0 ==> r == Ok(CardUpdate([], None))
    ensures r.Err? ==> downsample
    ensures |s.x| > 0 ==>
              var next := if downsample then IdxNextSmaller(s.xDown, s.x[|s.x| - 1]) else |s.x| - 1;
              (next <= drawn ==> r == Ok(CardUpdate([], None))) &&
              (next > drawn && r.Ok? ==> r.value.chkp == Some(next)) &&
              (r.Err? ==> next > drawn)
  {
    if |s.x| == 0 then Ok(CardUpdate([], None))
    else if !downsample then RawUpdate(s, drawn)
    else GridUpdate(s, drawn)
  }

  /** The raw branch: the newest raw index is the checkpoint. */
  function RawUpdate(s: Store, drawn: int): (r: Result<CardUpdate>)
    requires |s.x| > 0
    ensures r.Ok?
    ensures |s.x| - 1 <= drawn ==> r.value == CardUpdate([], None)
    ensures |s.x| - 1 > drawn ==> r.value == CardUpdate(RawEdits(s, drawn), Some(|s.x| - 1))
  {
    var next := |s.x| - 1;
    if next <= drawn then Ok(CardUpdate([], None))
    else Ok(CardUpdate(RawEdits(s, drawn), Some(next)))
  }

  /** The downsampled branch: the newest grid point the raw data covers is the checkpoint. */
  function GridUpdate(s: Store, drawn: int): (r: Result<CardUpdate>)
    requires |s.x| > 0
    ensures var next := IdxNextSmaller(s.xDown, s.x[|s.x| - 1]);
            (next <= drawn ==> r == Ok(CardUpdate([], None))) &&
            (next > drawn ==> (r.Ok? <==> GridEdits(s, drawn, next).Ok?)) &&
            (next > drawn && r.Ok? ==> r.value == CardUpdate(GridEdits(s, drawn, next).value, Some(next))) &&
            (r.Err? ==> next > drawn && r.error == GridEdits(s, drawn, next).error)
  {
    var next := IdxNextSmaller(s.xDown, s.x[|s.x| - 1]);
    if next <= drawn then Ok(CardUpdate([], None))
    else
      var p :- GridEdits(s, drawn, next);
      Ok(CardUpdate(p, Some(next)))
  }

  /**
   * The raw branch keeps the figure in step with the store: a main trace
   * showing the samples up to index `drawn` shows all of them afterwards.
   */
  lemma RawEditsDraw(s: Store, drawn: int)
    requires -1 <= drawn < |s.x| == |s.y|
    ensures Apply(RawEdits(s, drawn), 0, X, s.x[..drawn + 1]) == s.x
    ensures Apply(RawEdits(s, drawn), 0, Y, s.y[..drawn + 1]) == s.y
  {
    ExtendBoth(s.x[drawn + 1..], s.y[drawn + 1..], 0, s.x[..drawn + 1]);
    ExtendBoth(s.x[drawn + 1..], s.y[drawn + 1..], 0, s.y[..drawn + 1]);
    assert s.x[..drawn + 1] + s.x[drawn + 1..] == s.x && s.y[..drawn + 1] + s.y[drawn + 1..] == s.y;
  }

  /** The raw window of the downsampled branch interpolates the grid as the whole raw series does. */
  lemma WindowInterpAll(s: Store, drawn: int, next: nat)
    requires |s.x| == |s.y| > 0 && Ascending(s.x) && Ascending(s.xDown)
    requires -1 <= drawn < next < |s.xDown|
    ensures var oldest := IdxNextSmaller(s.x, s.xDown[drawn + 1]);
            var grid := s.xDown[drawn + 1..next + 1];
            InterpAll(grid, s.x[oldest..], s.y[oldest..]) == InterpAll(grid, s.x, s.y)
  {
    var start := s.xDown[drawn + 1];
    var oldest := IdxNextSmaller(s.x, start);
    var grid := s.xDown[drawn + 1..next + 1];
    if s.x[oldest] <= start {
      var a, b := InterpAll(grid, s.x[oldest..], s.y[oldest..]), InterpAll(grid, s.x, s.y);
      assert a.Ok? && b.Ok? && |a.value| == |b.value| == |grid|;
      forall k | 0 <= k < |grid|
        ensures a.value[k] == b.value[k]
      {
        assert grid[k] == s.xDown[drawn + 1 + k];
        WindowInterp(s.x, s.y, oldest, grid[k]);
      }
      assert a.value == b.value;
    } else {
      assert s.x[oldest..] == s.x && s.y[oldest..] == s.y;
    }
  }

  /**
   * The downsampled branch on an ascending store with as many y as x samples:
   * the grid points after `drawn` up to `next` are appended with the values
   * np.interp gives on the whole raw series, and the end point is the last
   * of them.
   */
  lemma GridEditsResample(s: Store, drawn: int, next: nat)
    requires |s.x| == |s.y| > 0 && Ascending(s.x) && Ascending(s.xDown)
    requires -1 <= drawn < next < |s.xDown|
    ensures var grid := s.xDown[drawn + 1..next + 1];
            InterpAll(grid, s.x, s.y).Ok? &&
            GridEdits(s, drawn, next) ==
              Ok([Extend(Some(0), X, grid), Extend(Some(0), Y, InterpAll(grid, s.x, s.y).value),
                  Assign(Some(1), X, [s.xDown[next]]), Assign(Some(1), Y, [InterpAt(s.x, s.y, s.xDown[next])])])
  {
    var n := |s.x|;
    var start := s.xDown[drawn + 1];
    var oldest := IdxNextSmaller(s.x, start);
    var grid := s.xDown[drawn + 1..next + 1];
    assert PySlice(s.xDown, drawn + 1, next + 1) == grid;
    WindowInterpAll(s, drawn, next);
    var ys := InterpAll(grid, s.x, s.y).value;
    assert InterpAll(grid, PySlice(s.x, oldest, n), PySlice(s.y, oldest, n)) == Ok(ys) by {
      assert PySlice(s.x, oldest, n) == s.x[oldest..] && PySlice(s.y, oldest, n) == s.y[oldest..];
    }
    assert |ys| == |grid| > 0;
    assert PyIndex(s.xDown, drawn + 1) == Ok(start) && PyIndex(s.xDown, next) == Ok(s.xDown[next]) &&
           PyIndex(ys, -1) == Ok(ys[|grid| - 1]);
    GridEditsOk(s, drawn, next, start, ys, s.xDown[next], ys[|grid| - 1]);
    assert grid[|grid| - 1] == s.xDown[next];
    assert [] + [Extend(Some(0), X, grid)] + [Extend(Some(0), Y, ys)] + [Assign(Some(1), X, [s.xDown[next]])] + [Assign(Some(1), Y, [ys[|grid| - 1]])]
        == [Extend(Some(0), X, grid), Extend(Some(0), Y, ys), Assign(Some(1), X, [s.xDown[next]]), Assign(Some(1), Y, [ys[|grid| - 1]])];
  }

  /** The downsampled branch raises ValueError when fewer y than x samples are stored. */
  lemma GridEditsShortY(s: Store, drawn: int, next: nat)
    requires 0 < |s.x| && |s.y| < |s.x| && -1 <= drawn < next < |s.xDown|
    ensures GridEdits(s, drawn, next) == Err(ValueError)
  {
    var n := |s.x|;
    var oldest := IdxNextSmaller(s.x, s.xDown[drawn + 1]);
    assert |PySlice(s.x, oldest, n)| == n - oldest > 0;
  }

  /**
   * Successive downsampled refreshes draw the grid: a main trace showing the
   * grid up to index `drawn` shows it up to `next` afterwards.
   */
  lemma GridEditsDraw(s: Store, drawn: int, next: nat)
    requires |s.x| == |s.y| > 0 && Ascending(s.x) && Ascending(s.xDown)
    requires -1 <= drawn < next < |s.xDown|
    ensures GridEdits(s, drawn, next).Ok?
    ensures Apply(GridEdits(s, drawn, next).value, 0, X, s.xDown[..drawn + 1]) == s.xDown[..next + 1]
  {
    GridEditsResample(s, drawn, next);
    var grid := s.xDown[drawn + 1..next + 1];
    var ys := InterpAll(grid, s.x, s.y).value;
    ExtendAndMove(grid, ys, [s.xDown[next]], [InterpAt(s.x, s.y, s.xDown[next])], s.xDown[..drawn + 1]);
    assert s.xDown[..drawn + 1] + grid == s.xDown[..next + 1];
  }

  /** Extending main trace 0 and then replacing end point trace 1: what each field becomes. */
  lemma ExtendAndMove(a: seq<real>, b: seq<real>, c: seq<real>, d: seq<real>, cur: seq<real>)
    ensures var p := [Extend(Some(0), X, a), Extend(Some(0), Y, b), Assign(Some(1), X, c), Assign(Some(1), Y, d)];
            Apply(p, 0, X, cur) == cur + a && Apply(p, 0, Y, cur) == cur + b &&
            Apply(p, 1, X, cur) == c && Apply(p, 1, Y, cur) == d
  {
    var p := [Extend(Some(0), X, a), Extend(Some(0), Y, b), Assign(Some(1), X, c), Assign(Some(1), Y, d)];
    var m, q := p[..2], p[2..];
    assert p == m + q;
    assert q[..1] == [q[0]] && q[..1][..0] == [];
    assert forall k :: 0 <= k < |m| ==> !Touches(m[k], 1, X) && !Touches(m[k], 1, Y);
    assert forall k :: 0 <= k < |q| ==> !Touches(q[k], 0, X) && !Touches(q[k], 0, Y);
    ExtendBoth(a, b, 0, cur);
    ApplyConcat(m, q, 0, X, cur);
    ApplyConcat(m, q, 0, Y, cur);
    ApplyConcat(m, q, 1, X, cur);
    ApplyConcat(m, q, 1, Y, cur);
  }

  /**
   * The second prototype: a fresh empty patch; with no raw sample, that patch
   * and `no_update`; otherwise the raw or the downsampled branch, each of
   * which returns early with the empty patch and `no_update` when there is
   * no new point, and otherwise returns its edits and the new checkpoint.
   */
  method UpdateIndexPrototype(store: Store, oldChkp: int, downsample: bool) returns (r: Result<CardUpdate>)
    ensures |store.x| == 0 ==> r == IndexUpdate(store, oldChkp, downsample)
    ensures |store.x| > 0 && !downsample ==> r == RawUpdate(store, oldChkp)
    ensures |store.x| > 0 && downsample ==> r == GridUpdate(store, oldChkp)
  {
    var ptch: Patch := [];
    if |store.x| == 0 {
      return Ok(CardUpdate(ptch, None));
    }
    var newChkp: int;
    if !downsample {
      var idxRawNewest := |store.x| - 1;
      newChkp := idxRawNewest;
      if newChkp <= oldChkp {
        return Ok(CardUpdate(ptch, None));
      }
      ptch := ptch + [Extend(Some(0), X, PySlice(store.x, oldChkp + 1, newChkp + 1))];
      ptch := ptch + [Extend(Some(0), Y, PySlice(store.y, oldChkp + 1, newChkp + 1))];
      assert ptch == RawEdits(store, oldChkp);
    }
    if downsample {
      var idxRawNewest := |store.x| - 1;
      newChkp := IdxNextSmaller(store.xDown, store.x[idxRawNewest]);
      if newChkp <= oldChkp {
        return Ok(CardUpdate(ptch, None));
      }
      var start :- PyIndex(store.xDown, oldChkp + 1);
      var idxRawOldest := IdxNextSmaller(store.x, start);
      var grid := PySlice(store.xDown, oldChkp + 1, newChkp + 1);
      var yDown :- InterpAll(grid, PySlice(store.x, idxRawOldest, idxRawNewest + 1), PySlice(store.y, idxRawOldest, idxRawNewest + 1));
      ptch := ptch + [Extend(Some(0), X, grid)];
      ptch := ptch + [Extend(Some(0), Y, yDown)];
      var endX :- PyIndex(store.xDown, newChkp);
      ptch := ptch + [Assign(Some(1), X, [endX])];
      var endY :- PyIndex(yDown, -1);
      ptch := ptch + [Assign(Some(1), Y, [endY])];
      GridEditsOk(store, oldChkp, newChkp, start, yDown, endX, endY);
    }
    return Ok(CardUpdate(ptch, Some(newChkp)));
  }
}
