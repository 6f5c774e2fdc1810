/** Option and Result values used where the Kotlin code returns `null` or a `kotlin.Result`. */
module Wrappers {

  datatype Option<+T> = None | Some(value: T) {
    function GetOr(default: T): T {
      match this
      case Some(v) => v
      case None => default
    }
  }

  /** `kotlin.Result<T>`: a value or the message of the exception it carries. */
  datatype Result<+T> = Success(value: T) | Failure(message: string) {
    /** `Result.getOrNull()` */
    function GetOrNull(): Option<T> {
      match this
      case Success(v) => Some(v)
      case Failure(_) => None
    }
  }
}
