/** `fillna(axis="columns", method="ffill")` on one wide row: every missing cell takes the
    value of the nearest present cell to its left; a cell with nothing present to its left
    stays missing. */
module RowFill {
  import opened Options

  /** Reference definition: the nearest present cell at or left of column i. */
  function LastKnown<T>(cells: seq<Option<T>>, i: int): (r: Option<T>)
    requires 0 <= i < |cells|
    ensures r.Some? ==> exists j :: 0 <= j <= i && cells[j] == r && forall k :: j < k <= i ==> cells[k].None?
    ensures r.None? ==> forall k :: 0 <= k <= i ==> cells[k].None?
  {
    if cells[i].Some? then cells[i]
    else if i == 0 then None
    else LastKnown(cells, i - 1)
  }

  /** The fill as a left-to-right scan that carries the last present value. */
  function FillFrom<T>(cells: seq<Option<T>>, carry: Option<T>): seq<Option<T>>
  {
    if cells == [] then []
    else
      var c := if cells[0].Some? then cells[0] else carry;
      [c] + FillFrom(cells[1..], c)
  }

  function FilledRow<T>(cells: seq<Option<T>>): seq<Option<T>>
  {
    FillFrom(cells, None)
  }

  lemma {:induction false} LastKnownShift<T>(cells: seq<Option<T>>, i: int)
    requires 1 <= i < |cells|
    ensures LastKnown(cells, i) ==
              if LastKnown(cells[1..], i - 1).Some? then LastKnown(cells[1..], i - 1)
              else cells[0]
  {
    if cells[i].Some? {
      assert cells[1..][i - 1] == cells[i];
    } else {
      assert cells[1..][i - 1] == cells[i];
      if i > 1 {
        LastKnownShift(cells, i - 1);
      }
    }
  }

  lemma {:induction false} FillFromAt<T>(cells: seq<Option<T>>, carry: Option<T>, i: int)
    requires 0 <= i < |cells|
    ensures |FillFrom(cells, carry)| == |cells|
    ensures FillFrom(cells, carry)[i] == if LastKnown(cells, i).Some? then LastKnown(cells, i) else carry
  {
    var c := if cells[0].Some? then cells[0] else carry;
    if i == 0 {
      FillFromLength(cells[1..], c);
    } else {
      FillFromAt(cells[1..], c, i - 1);
      LastKnownShift(cells, i);
    }
  }

  lemma {:induction false} FillFromLength<T>(cells: seq<Option<T>>, carry: Option<T>)
    ensures |FillFrom(cells, carry)| == |cells|
  {
    if cells != [] {
      var c := if cells[0].Some? then cells[0] else carry;
      FillFromLength(cells[1..], c);
    }
  }

  /** The scan agrees with the reference definition in every column. */
  lemma FilledRowIsLastKnown<T>(cells: seq<Option<T>>)
    ensures |FilledRow(cells)| == |cells|
    ensures forall i :: 0 <= i < |cells| ==> FilledRow(cells)[i] == LastKnown(cells, i)
  {
    FillFromLength(cells, None);
    forall i | 0 <= i < |cells|
      ensures FilledRow(cells)[i] == LastKnown(cells, i)
    {
      FillFromAt(cells, None, i);
    }
  }

  /** Present cells are unchanged, a missing cell copies its filled left neighbour, and a
      row whose first cell is present has no missing cell afterwards. */
  lemma FilledRowFacts<T>(cells: seq<Option<T>>)
    ensures |FilledRow(cells)| == |cells|
    ensures forall i :: 0 <= i < |cells| && cells[i].Some? ==> FilledRow(cells)[i] == cells[i]
    ensures forall i :: 1 <= i < |cells| && cells[i].None? ==> FilledRow(cells)[i] == FilledRow(cells)[i - 1]
    ensures |cells| > 0 && cells[0].None? ==> FilledRow(cells)[0].None?
    ensures |cells| > 0 && cells[0].Some? ==> forall i :: 0 <= i < |cells| ==> FilledRow(cells)[i].Some?
  {
    var f := FilledRow(cells);
    FilledRowIsLastKnown(cells);
    forall i | 1 <= i < |cells| && cells[i].None?
      ensures f[i] == f[i - 1]
    {
      assert f[i] == LastKnown(cells, i) == LastKnown(cells, i - 1);
    }
    if |cells| > 0 && cells[0].Some? {
      forall i | 0 <= i < |cells|
        ensures f[i].Some?
      {
        assert f[i] == LastKnown(cells, i);
      }
    }
  }

  /** The row-wise fill, cell by cell on a buffer holding the row. */
  method FillRow<T>(cells: seq<Option<T>>) returns (filled: seq<Option<T>>)
    ensures |filled| == |cells|
    ensures forall i :: 0 <= i < |cells| ==> filled[i] == LastKnown(cells, i)
    ensures filled == FilledRow(cells)
  {
    var a := new Option<T>[|cells|](i requires 0 <= i < |cells| => cells[i]);
    var i := 0;
    while i < a.Length
      invariant 0 <= i <= a.Length
      invariant forall k :: 0 <= k < i ==> a[k] == LastKnown(cells, k)
      invariant forall k :: i <= k < a.Length ==> a[k] == cells[k]
    {
      if a[i].None? && i > 0 {
        a[i] := a[i - 1];
      }
      i := i + 1;
    }
    filled := a[..];
    FilledRowIsLastKnown(cells);
  }
}
