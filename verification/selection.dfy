/**
 * What both diffusion dialogs derive from their list of generated variants:
 * the boolean selection list (one flag per variant, toggled by the variant's
 * button), the variants kept (`result_images`), the first selected index
 * (`list.index(True)`), and the grid cell each variant's button occupies.
 */
module Selection {
  import opened Wrappers

  /** The grid of variant buttons has two columns (`self._columns = 2`). */
  const Columns: nat := 2

  /** A button in the grid layout: the variant it shows and its cell. */
  datatype Placement = Placement(index: nat, row: nat, column: nat)

  /** `layout.addWidget(button, i // self._columns, i % self._columns)` */
  function Place(i: nat): (p: Placement)
    ensures p.index == i && p.column < Columns
    ensures p.row * Columns + p.column == i
  {
    Placement(i, i / Columns, i % Columns)
  }

  /** The buttons of `n` variants, in the order they are added. */
  function Placements(n: nat): (ps: seq<Placement>)
    ensures |ps| == n
    ensures forall i :: 0 <= i < n ==> ps[i] == Place(i)
  {
    seq(n, i requires 0 <= i < n => Place(i))
  }

  /** No two variants share a cell, and the cell determines the variant. */
  lemma PlacesDistinct(i: nat, j: nat)
    requires i != j
    ensures Place(i).row != Place(j).row || Place(i).column != Place(j).column
  {
  }

  /** `[False] * n` */
  function Cleared(n: nat): (sel: seq<bool>)
    ensures |sel| == n && forall i :: 0 <= i < n ==> !sel[i]
  {
    seq(n, _ => false)
  }

  /** `sum(selection)`: the number of selected variants. */
  function CountSelected(sel: seq<bool>): nat
    decreases |sel|
  {
    if |sel| == 0 then 0 else (if sel[0] then 1 else 0) + CountSelected(sel[1..])
  }

  /** `any(selection)` */
  predicate AnySelected(sel: seq<bool>) {
    exists i :: 0 <= i < |sel| && sel[i]
  }

  /** Something is selected exactly when the count is positive. */
  lemma {:induction false} AnyIffCountPositive(sel: seq<bool>)
    ensures AnySelected(sel) <==> CountSelected(sel) > 0
    decreases |sel|
  {
    if |sel| > 0 {
      AnyIffCountPositive(sel[1..]);
      if AnySelected(sel[1..]) {
        var i :| 0 <= i < |sel[1..]| && sel[1..][i];
        assert sel[i + 1];
      }
      if AnySelected(sel) && !sel[0] {
        var i :| 0 <= i < |sel| && sel[i];
        assert sel[1..][i - 1];
      }
    }
  }

  lemma {:induction false} CountCleared(n: nat)
    ensures CountSelected(Cleared(n)) == 0
    decreases n
  {
    if n > 0 {
      assert Cleared(n)[1..] == Cleared(n - 1);
      CountCleared(n - 1);
    }
  }

  /** The indices of the selected variants, in increasing order. */
  function SelectedIndices(sel: seq<bool>): (idx: seq<nat>)
    ensures forall k :: 0 <= k < |idx| ==> idx[k] < |sel| && sel[idx[k]]
    ensures forall k, l :: 0 <= k < l < |idx| ==> idx[k] < idx[l]
    decreases |sel|
  {
    if |sel| == 0 then []
    else
      var last := |sel| - 1;
      SelectedIndices(sel[..last]) + (if sel[last] then [last] else [])
  }

  /** Every selected index is listed. */
  lemma {:induction false} SelectedIndicesComplete(sel: seq<bool>, i: nat)
    requires i < |sel| && sel[i]
    ensures i in SelectedIndices(sel)
    decreases |sel|
  {
    var last := |sel| - 1;
    if i < last {
      SelectedIndicesComplete(sel[..last], i);
    }
  }

  /**
   * `[image for selected, image in zip(selection, images) if selected]`;
   * `zip` stops at the shorter list.
   */
  function Selected<T>(sel: seq<bool>, items: seq<T>): (r: seq<T>)
    ensures |r| <= |items|
    decreases |sel|
  {
    if |sel| == 0 || |items| == 0 then []
    else (if sel[0] then [items[0]] else []) + Selected(sel[1..], items[1..])
  }

  /** Filtering over the selection appended a flag at a time (the step SelectedIndices takes). */
  lemma {:induction false} SelectedSnoc<T>(sel: seq<bool>, items: seq<T>)
    requires |sel| == |items| > 0
    ensures Selected(sel, items) ==
      Selected(sel[..|sel| - 1], items[..|items| - 1]) + (if sel[|sel| - 1] then [items[|items| - 1]] else [])
    decreases |sel|
  {
    if |sel| > 1 {
      SelectedSnoc(sel[1..], items[1..]);
      assert sel[1..][..|sel| - 2] == sel[..|sel| - 1][1..];
      assert items[1..][..|items| - 2] == items[..|items| - 1][1..];
    }
  }

  /**
   * The kept variants are exactly the selected ones, in their original
   * order: the k-th kept variant is the variant at the k-th selected index.
   */
  lemma {:induction false} SelectedInOrder<T>(sel: seq<bool>, items: seq<T>)
    requires |sel| == |items|
    ensures |Selected(sel, items)| == |SelectedIndices(sel)|
    ensures forall k :: 0 <= k < |SelectedIndices(sel)| ==>
      Selected(sel, items)[k] == items[SelectedIndices(sel)[k]]
    decreases |sel|
  {
    if |sel| > 0 {
      var n := |sel| - 1;
      SelectedSnoc(sel, items);
      SelectedInOrder(sel[..n], items[..n]);
      var prev, idx := Selected(sel[..n], items[..n]), SelectedIndices(sel[..n]);
      assert Selected(sel, items) == prev + (if sel[n] then [items[n]] else []);
      assert SelectedIndices(sel) == idx + (if sel[n] then [n] else []);
      forall k | 0 <= k < |SelectedIndices(sel)|
        ensures Selected(sel, items)[k] == items[SelectedIndices(sel)[k]]
      {
        if k < |idx| {
          assert Selected(sel, items)[k] == prev[k];
          assert items[..n][idx[k]] == items[idx[k]];
        }
      }
    }
  }

  /** As many variants are kept as are selected. */
  lemma {:induction false} SelectedCount<T>(sel: seq<bool>, items: seq<T>)
    requires |sel| == |items|
    ensures |Selected(sel, items)| == CountSelected(sel)
    decreases |sel|
  {
    if |sel| > 0 {
      SelectedCount(sel[1..], items[1..]);
    }
  }

  /** `selection.index(True)`: None stands for the ValueError raised when nothing is selected. */
  function FirstSelected(sel: seq<bool>): (r: Option<nat>)
    ensures r.Some? ==> r.value < |sel| && sel[r.value]
    ensures r.Some? ==> forall j :: 0 <= j < r.value ==> !sel[j]
    ensures r.None? <==> !AnySelected(sel)
    decreases |sel|
  {
    if |sel| == 0 then None
    else if sel[0] then Some(0)
    else
      match FirstSelected(sel[1..])
      case None => None
      case Some(k) => Some(k + 1)
  }
}
