/** Small result types shared by every module of the model. */
module Common {

  /** A value that may be absent (Python None / False, a JavaScript undefined). */
  datatype Option<+T> = None | Some(value: T)

  /** The outcome of an ORM constraint or guard: it passes, or it raises with a reason. */
  datatype Outcome<+E> = Pass | Fail(error: E)

  /** The index of the first element satisfying `p`, as `search(..., limit=1)` or `Array.find` pick it. */
  function FindFirst<T>(s: seq<T>, p: T -> bool): (r: Option<nat>)
    ensures r.Some? ==> r.value < |s| && p(s[r.value]) && forall j :: 0 <= j < r.value ==> !p(s[j])
    ensures r.None? ==> forall j :: 0 <= j < |s| ==> !p(s[j])
    decreases |s|
  {
    if s == [] then None
    else if p(s[0]) then Some(0)
    else match FindFirst(s[1..], p)
      case None => None
      case Some(k) => Some(k + 1)
  }
}
