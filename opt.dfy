/** The Option type used wherever the source has `undefined`, `NaN` or a
    missing element: a lookup that finds nothing, a `parseInt` that fails. */
module Opt {

  datatype Option<+T> = None | Some(value: T) {

    /** The value, or `default` when there is none (the source's `x || d`). */
    function GetOr(default: T): T {
      match this
      case Some(v) => v
      case None => default
    }
  }

  /** JavaScript's `parseInt(x) || d`: a failed parse (NaN, here `None`) and
      a zero are both falsy, and both give way to the default `d`. */
  function IntOr(parsed: Option<int>, d: int): (r: int)
    ensures parsed.Some? && parsed.value != 0 ==> r == parsed.value
    ensures parsed.None? || parsed.value == 0 ==> r == d
  {
    if parsed.None? || parsed.value == 0 then d else parsed.value
  }
}
