/**
 * The refresh callback of the standalone test app: three cards patched from
 * one global trace store, with the number of raw samples drawn as checkpoint.
 */
module TestApp {
  import opened Py
  import opened Interp
  import opened Patches
  import opened Prototypes

  /**
   * An empty store gives `no_update`. Otherwise a downsampled series is
   * computed from the whole store and never used; np.interp raises
   * ValueError when the producer has appended an x but not yet its y (or the
   * other way round). The checkpoint is the number of raw x samples, and all
   * three cards get the same patch: the count-checkpoint edits when that
   * number exceeds the old checkpoint, and no edit otherwise.
   */
  method UpdateGraphPatched(store: Store, oldChkp: int) returns (r: Result<CardsUpdate>)
    ensures |store.x| == 0 ==> r == Ok(NoUpdate)
    ensures |store.x| > 0 ==> (r.Err? <==> |store.y| != |store.x|)
    ensures r.Err? ==> r.error == ValueError
    ensures |store.x| > 0 && r.Ok? ==>
              var n := |store.x|;
              var p := if n > oldChkp then CountPatch(store.x, store.y, oldChkp) else [];
              r == Ok(Cards(p, p, p, n))
  {
    if |store.x| <= 0 {
      return Ok(NoUpdate);
    }
    var lastidx := SearchsortedMinusOne(store.xDown, store.x[|store.x| - 1]);
    var xDown := store.xDown;
    var yDown :- InterpAll(PySlice(xDown, 0, lastidx + 1), store.x, store.y);
    var newChkp := |store.x|;
    var ptch: Patch := [];
    if newChkp > oldChkp {
      ptch := ptch + [Extend(Some(0), X, PySlice(store.x, oldChkp, newChkp)), Extend(Some(0), Y, PySlice(store.y, oldChkp, newChkp))];
      ptch := ptch + [Assign(Some(1), X, [store.x[newChkp - 1]]), Assign(Some(1), Y, [store.y[newChkp - 1]])];
      assert ptch == MainEdits(store.x, store.y, oldChkp) + EndEdits(store.x, store.y);
      ghost var front := ptch;
      assert store.y[..newChkp] == store.y;
      var newMin := Min(store.y[..newChkp]);
      ptch := ptch + [AssignLevel(Some(2), Fin(newMin))];
      ptch := ptch + [AnnotText(Some(0), "lowest", Fin(newMin)), AnnotY(Some(0), Fin(newMin))];
      newMin := Min(store.y[..newChkp]);
      var newMax := Max(store.y[..newChkp]);
      ptch := ptch + [AxisLimit(1, MinAllowed, newMin - 1.0), AxisLimit(1, MaxAllowed, newMax + 1.0)];
      BestEditsRecorded(front, Min(store.y[..newChkp]), newMax, newMin);
    }
    return Ok(Cards(ptch, ptch, ptch, newChkp));
  }
}
