/** Shared wrapper types for the model: an optional value, the stand-in for a
    JavaScript field that may be `undefined` or a lookup that may find nothing. */
module Common {

  datatype Option<+T> = None | Some(value: T) {

    /** The value when present, otherwise `default` (JavaScript's `x || d` on strings
        is modelled separately where the empty string matters). */
    function GetOr(default: T): T {
      match this
      case Some(v) => v
      case None => default
    }
  }
}
