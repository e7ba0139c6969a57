/** Python list indexing, as the CPU applies it to its RAM and register lists.

    A Python list of length n accepts an index i when -n <= i < n; a negative
    index counts from the end, anything else raises IndexError. Reading and
    writing never change the length of the list. */
module PyList {

  datatype Option<+T> = None | Some(value: T)

  /** The position `xs[i]` denotes in a list of length `n`, or None when the
      access raises IndexError. */
  function Slot(i: int, n: nat): (r: Option<nat>)
    ensures r.Some? <==> -(n as int) <= i < n
    ensures r.Some? ==> r.value < n && (0 <= i ==> r.value == i) && (i < 0 ==> r.value + (-i) == n)
  {
    if 0 <= i < n then Some(i)
    else if -(n as int) <= i < 0 then Some(n + i)
    else None
  }

  /** `xs[i]`: the element, or None for IndexError. */
  function Get<T>(xs: seq<T>, i: int): (r: Option<T>)
    ensures r.Some? <==> -|xs| <= i < |xs|
    ensures 0 <= i < |xs| ==> r == Some(xs[i])
    ensures -|xs| <= i < 0 ==> r == Some(xs[|xs| + i])
  {
    match Slot(i, |xs|)
    case None => None
    case Some(k) => Some(xs[k])
  }

  /** `xs[i] = v`: the updated list, or None for IndexError. */
  function Put<T>(xs: seq<T>, i: int, v: T): (r: Option<seq<T>>)
    ensures r.Some? <==> -|xs| <= i < |xs|
    ensures r.Some? ==> |r.value| == |xs|
    ensures 0 <= i < |xs| ==> r == Some(xs[i := v])
    ensures -|xs| <= i < 0 ==> r == Some(xs[|xs| + i := v])
  {
    match Slot(i, |xs|)
    case None => None
    case Some(k) => Some(xs[k := v])
  }

  /** A write followed by a read of the same index gives back the written
      value, and every other position keeps its old value. */
  lemma GetAfterPut<T>(xs: seq<T>, i: int, v: T)
    requires -|xs| <= i < |xs|
    ensures Put(xs, i, v).Some?
    ensures Get(Put(xs, i, v).value, i) == Some(v)
    ensures forall j :: 0 <= j < |xs| && Some(j) != Slot(i, |xs|) ==> Put(xs, i, v).value[j] == xs[j]
  {
  }
}
