/**
 * Small value wrappers shared by every module: an optional value (a field
 * that is `undefined` in the JavaScript objects) and the outcome of an
 * operation that may raise an exception instead of returning.
 */
module Common {

  datatype Option<+T> = None | Some(value: T) {
    /** The value, or `default` when absent (JavaScript's `x ?? default`). */
    function GetOr(default: T): T {
      match this
      case Some(v) => v
      case None => default
    }
  }

  /** What an `async` call settles to: a returned value or a raised error's message. */
  datatype Outcome<+T> = Returned(value: T) | Raised(message: string)
}
