/** Values shared by the JavaScript and the Python halves of the backend. */
module Common {

  /** A field or a lookup result that may be absent (`undefined`, `None`, `null`). */
  datatype Option<+T> = None | Some(value: T) {

    /** The value, or `default` when absent. */
    function GetOr(default: T): T {
      match this
      case Some(v) => v
      case None => default
    }
  }

  /** JavaScript's `!s` on an optional string: true when it is absent or empty. */
  predicate IsBlank(s: Option<string>) {
    s.None? || s.value == ""
  }

  /**
   * The position of the first element `matches` accepts, or None when it
   * accepts none: how `find`, `findOne` and `find_one` pick among documents
   * kept in natural order.
   */
  function FindFirst<T>(s: seq<T>, matches: T -> bool): (r: Option<nat>)
    ensures r.Some? ==> r.value < |s| && matches(s[r.value])
    ensures r.Some? ==> forall j :: 0 <= j < r.value ==> !matches(s[j])
    ensures r.None? ==> forall j :: 0 <= j < |s| ==> !matches(s[j])
  {
    if s == [] then None
    else if matches(s[0]) then Some(0)
    else match FindFirst(s[1..], matches)
      case None => None
      case Some(i) => Some(i + 1)
  }

  /** A point in time as a clock reports it; clocks are parameters of the model. */
  type Time = int
}
