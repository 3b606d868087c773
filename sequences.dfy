/** Sequence helpers shared by the aggregation steps: row filters, extrema of a column,
    `drop_duplicates` and the sorted distinct keys of a `groupby`/`unstack`. */
module Sequences {

  /** The smallest element of a non-empty column (`transform("min")`). */
  function Minimum(xs: seq<int>): (m: int)
    requires |xs| > 0
    ensures m in xs
    ensures forall x :: x in xs ==> m <= x
  {
    if |xs| == 1 then xs[0]
    else
      var r := Minimum(xs[1..]);
      assert xs == [xs[0]] + xs[1..];
      if xs[0] <= r then xs[0] else r
  }

  /** The largest element of a non-empty column (`transform("max")`). */
  function Maximum(xs: seq<int>): (m: int)
    requires |xs| > 0
    ensures m in xs
    ensures forall x :: x in xs ==> x <= m
  {
    if |xs| == 1 then xs[0]
    else
      var r := Maximum(xs[1..]);
      assert xs == [xs[0]] + xs[1..];
      if xs[0] >= r then xs[0] else r
  }

  /** The rows for which a boolean mask holds, in their original order (`df[mask]`). */
  function Filter<T>(s: seq<T>, keep: T -> bool): (r: seq<T>)
    ensures |r| <= |s|
    ensures forall i :: 0 <= i < |r| ==> r[i] in s && keep(r[i])
    ensures forall i :: 0 <= i < |s| && keep(s[i]) ==> s[i] in r
    ensures (exists i :: 0 <= i < |s| && !keep(s[i])) ==> |r| < |s|
  {
    if s == [] then []
    else
      assert s == [s[0]] + s[1..];
      assert forall i :: 1 <= i < |s| ==> s[i] == s[1..][i - 1];
      (if keep(s[0]) then [s[0]] else []) + Filter(s[1..], keep)
  }

  /** `drop_duplicates`: every value once. */
  function Distinct<T(==)>(s: seq<T>): (r: seq<T>)
    ensures forall i :: 0 <= i < |r| ==> r[i] in s
    ensures forall i :: 0 <= i < |s| ==> s[i] in r
    ensures forall i, j :: 0 <= i < j < |r| ==> r[i] != r[j]
  {
    if s == [] then []
    else
      var d := Distinct(s[..|s| - 1]);
      var x := s[|s| - 1];
      assert s == s[..|s| - 1] + [x];
      if x in d then d else d + [x]
  }

  /** Adds a value to a strictly ascending sequence, unless it is already there. */
  function Insert(sorted: seq<int>, x: int): (r: seq<int>)
    requires forall i, j :: 0 <= i < j < |sorted| ==> sorted[i] < sorted[j]
    ensures forall y :: y in r <==> y in sorted || y == x
    ensures forall i, j :: 0 <= i < j < |r| ==> r[i] < r[j]
  {
    if sorted == [] then [x]
    else if x < sorted[0] then [x] + sorted
    else if x == sorted[0] then sorted
    else
      var tail := Insert(sorted[1..], x);
      assert sorted == [sorted[0]] + sorted[1..];
      assert forall y :: y in sorted[1..] ==> sorted[0] < y;
      assert forall k :: 0 <= k < |tail| ==> tail[k] in tail;
      [sorted[0]] + tail
  }

  /** The distinct values of a column in ascending order (the sorted index of `unstack`). */
  function SortedUnique(xs: seq<int>): (r: seq<int>)
    ensures forall x :: x in r <==> x in xs
    ensures forall i, j :: 0 <= i < j < |r| ==> r[i] < r[j]
  {
    if xs == [] then []
    else
      var init, last := xs[..|xs| - 1], xs[|xs| - 1];
      assert xs == init + [last];
      assert forall x :: x in xs <==> x in init || x == last;
      Insert(SortedUnique(init), last)
  }
}
