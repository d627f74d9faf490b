/** The optional-value datatype used for every field the component may find absent. */
module Wrappers {

  /** A value that may be absent (`null` or `undefined` in the component). */
  datatype Option<+T> = None | Some(value: T) {

    /** The value if present, `default` otherwise. */
    function GetOr(default: T): (r: T)
      ensures Some? ==> r == value
      ensures None? ==> r == default
    {
      match this
      case Some(v) => v
      case None => default
    }
  }
}
