/**
 * The row selection shared by the two list pages: a list of row indices that
 * check boxes toggle, and the ids a delete takes from it.
 */
module Selection {
  import opened Base
  import opened PageValues

  function Other(i: int): int -> bool {
    x => x != i
  }

  /** `prev.includes(i) ? prev.filter(x => x !== i) : [...prev, i]`. */
  function Toggle(sel: seq<int>, i: int): (r: seq<int>)
    ensures i in r <==> i !in sel
    ensures forall j :: j != i ==> (j in r <==> j in sel)
    ensures i !in sel ==> r == sel + [i]
    ensures i in sel ==> |r| < |sel|
    ensures NoDup(sel) ==> NoDup(r)
  {
    if i in sel then
      KeepsNoDup(sel, i);
      var k :| 0 <= k < |sel| && sel[k] == i;
      FilterLeavesOut(sel, Other(i), k);
      Filter(sel, Other(i))
    else sel + [i]
  }

  lemma KeepsNoDup(sel: seq<int>, i: int)
    ensures NoDup(sel) ==> NoDup(Filter(sel, Other(i)))
  {
    if NoDup(sel) {
      FilterNoDup(sel, Other(i));
    }
  }

  /** Leaving out an element that fails the test makes the filtered list shorter. */
  lemma {:induction false} FilterLeavesOut<T>(s: seq<T>, p: T -> bool, k: nat)
    requires k < |s| && !p(s[k])
    ensures |Filter(s, p)| < |s|
  {
    var n := |s| - 1;
    if k < n {
      assert s[..n][k] == s[k];
      FilterLeavesOut(s[..n], p, k);
    }
  }

  /** Removing a present index keeps the order of the others. */
  lemma ToggleRemovesInPlace(sel: seq<int>, i: int)
    requires NoDup(sel) && i in sel
    ensures var k := FirstIndex(sel, i); Toggle(sel, i) == sel[..k] + sel[k + 1..]
  {
    var k := FirstIndex(sel, i);
    assert sel == sel[..k] + [i] + sel[k + 1..];
    FilterAppend(sel[..k] + [i], sel[k + 1..], Other(i));
    FilterAppend(sel[..k], [i], Other(i));
    FilterAll(sel[..k], Other(i));
    FilterAll(sel[k + 1..], Other(i));
    assert Filter([i], Other(i)) == [];
  }

  /** Toggling the same index twice gives back the same set of selected indices. */
  lemma ToggleTwice(sel: seq<int>, i: int)
    ensures forall j :: j in Toggle(Toggle(sel, i), i) <==> j in sel
    ensures i !in sel ==> Toggle(Toggle(sel, i), i) == sel
  {
    if i !in sel {
      var t := sel + [i];
      FilterAppend(sel, [i], Other(i));
      FilterAll(sel, Other(i));
      assert Filter([i], Other(i)) == [];
    }
  }

  /**
   * What pressing delete does: nothing but an alert when nothing is selected;
   * otherwise one DELETE per selected index, in selection order, for the id of
   * that row of the filtered list. `stale` records an index past the end of
   * the list, whose callback throws, so the batch fails after the other
   * requests have gone out.
   */
  datatype DeleteOutcome = NothingSelected | Deletes(ids: seq<Value>, stale: bool)

  function DeleteIds<T>(sel: seq<int>, rows: seq<T>, idOf: T -> Value): (ids: seq<Value>)
    ensures |ids| <= |sel|
    ensures (forall k :: 0 <= k < |sel| ==> 0 <= sel[k] < |rows|) ==>
      |ids| == |sel| && forall k :: 0 <= k < |sel| ==> ids[k] == idOf(rows[sel[k]])
  {
    if sel == [] then []
    else
      var n := |sel| - 1;
      var prefix := DeleteIds(sel[..n], rows, idOf);
      assert forall k :: 0 <= k < n ==> sel[..n][k] == sel[k];
      if 0 <= sel[n] < |rows| then prefix + [idOf(rows[sel[n]])] else prefix
  }

  function DeleteTargets<T>(sel: seq<int>, rows: seq<T>, idOf: T -> Value): (out: DeleteOutcome)
    ensures out == NothingSelected <==> sel == []
    ensures out.Deletes? ==> (out.stale <==> exists k :: 0 <= k < |sel| && !(0 <= sel[k] < |rows|))
    ensures out.Deletes? && !out.stale ==>
      |out.ids| == |sel| && forall k :: 0 <= k < |sel| ==> out.ids[k] == idOf(rows[sel[k]])
  {
    if sel == [] then NothingSelected
    else Deletes(DeleteIds(sel, rows, idOf), exists k :: 0 <= k < |sel| && !(0 <= sel[k] < |rows|))
  }
}
