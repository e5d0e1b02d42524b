/** Optional values and results with an error branch, used for Kotlin's nullable
    types and for the exceptions the modelled code can throw. */
module Wrappers {

  datatype Option<+T> = None | Some(value: T) {
    /** Kotlin's elvis operator `this ?: default`. */
    function GetOr(default: T): T {
      match this
      case Some(v) => v
      case None => default
    }
  }

  /** The exceptions the modelled Kotlin code can raise. */
  datatype Error =
    | NoSuchElement       // `first()` on an empty list
    | IndexOutOfBounds    // `get(0)` on an empty list
    | NullPointer         // `!!` on null, `null as String`
    | JsonError           // a JSON `getX` on a missing key, or a malformed document
    | NumberFormat        // `String.toInt()` on a string that is not a number

  datatype Result<+T> = Ok(value: T) | Err(error: Error)
}
