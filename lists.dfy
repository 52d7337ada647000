/** Sequence searches shared by the services' in-memory tables. */
module Lists {
  import opened Wrappers

  /** The index of the first element satisfying `p`, as JavaScript's
      `Array.prototype.findIndex` computes it (None standing for -1);
      `find` is this index followed by a read. */
  function FindFirst<T>(s: seq<T>, p: T -> bool): (r: Option<nat>)
    ensures r.Some? ==> r.value < |s| && p(s[r.value])
    ensures r.Some? ==> forall j :: 0 <= j < r.value ==> !p(s[j])
    ensures r.None? ==> forall j :: 0 <= j < |s| ==> !p(s[j])
  {
    if s == [] then None
    else if p(s[0]) then Some(0)
    else match FindFirst(s[1..], p)
      case None => None
      case Some(k) => Some(k + 1)
  }
}
