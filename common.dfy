/** Shared vocabulary: optional values, the abstract clock, and JavaScript truthiness
    of the optional string fields that arrive in request bodies and headers. */
module Common {

  datatype Option<+T> = None | Some(value: T) {
    function GetOr(default: T): T {
      match this
      case Some(v) => v
      case None => default
    }
  }

  /** Milliseconds on an abstract clock; `Date.now()` becomes a parameter. */
  type Time = int

  /** A field that is absent (`undefined`) or the empty string is falsy in JavaScript. */
  predicate Falsy(s: Option<string>) {
    s.None? || s.value == ""
  }
}
