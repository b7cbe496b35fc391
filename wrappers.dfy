/** Optional values and the first-match search shared by both record sets. */
module Wrappers {

  /** A value that may be absent: JavaScript's null or undefined, Python's None. */
  datatype Option<+T> = None | Some(value: T)

  /**
   * The index of the first element of `s` that satisfies `p`, as
   * Array.prototype.findIndex computes it; None stands for its -1.
   */
  function FindIndex<T>(s: seq<T>, p: T -> bool): (r: Option<nat>)
    ensures r.Some? ==> r.value < |s| && p(s[r.value])
    ensures r.Some? ==> forall j :: 0 <= j < r.value ==> !p(s[j])
    ensures r.None? ==> forall j :: 0 <= j < |s| ==> !p(s[j])
  {
    if s == [] then None
    else if p(s[0]) then Some(0)
    else match FindIndex(s[1..], p)
      case None => None
      case Some(i) => Some(i + 1)
  }
}
