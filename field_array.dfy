/** The list operations a form's field array offers: `append` adds at the end,
    `remove(i)` deletes the element at `i` (an index outside the list removes
    nothing), and a single entry can be overwritten in place. */
module FieldArray {

  function RemoveAt<T>(xs: seq<T>, i: int): (r: seq<T>)
    ensures 0 <= i < |xs| ==> |r| == |xs| - 1 && r[..i] == xs[..i] && r[i..] == xs[i + 1..]
    ensures !(0 <= i < |xs|) ==> r == xs
  {
    if 0 <= i < |xs| then xs[..i] + xs[i + 1..] else xs
  }

  /** Removing keeps every other element, in order: the element now at `j` was at
      `j` before the removed index and at `j + 1` after it. */
  lemma RemoveAtShifts<T>(xs: seq<T>, i: int, j: int)
    requires 0 <= i < |xs| && 0 <= j < |xs| - 1
    ensures RemoveAt(xs, i)[j] == if j < i then xs[j] else xs[j + 1]
  {
    var r := RemoveAt(xs, i);
    if j < i {
      assert r[j] == r[..i][j];
    } else {
      assert r[j] == r[i..][j - i];
    }
  }

  /** Overwrite the entry at `i`. */
  function SetAt<T>(xs: seq<T>, i: int, x: T): (r: seq<T>)
    requires 0 <= i < |xs|
    ensures |r| == |xs| && r[i] == x
    ensures forall j | 0 <= j < |xs| && j != i :: r[j] == xs[j]
  {
    xs[i := x]
  }

  /** Appending and then removing the new last entry gives the list back. */
  lemma RemoveAppended<T>(xs: seq<T>, x: T)
    ensures RemoveAt(xs + [x], |xs|) == xs
  {
    assert (xs + [x])[..|xs|] == xs;
  }
}
