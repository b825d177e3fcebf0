/** Failure-carrying values used in place of the JavaScript exceptions and nulls. */
module Wrappers {

  /** A value that may be absent (`null`/`undefined` in the source). */
  datatype Option<+T> = None | Some(value: T) {
    function GetOr(default: T): T {
      match this
      case Some(v) => v
      case None => default
    }
  }

  /** The outcome of an operation that returns a value or throws. */
  datatype Result<+T, +E> = Success(value: T) | Failure(error: E)

  /** The outcome of an operation that returns nothing or throws. */
  datatype Outcome<+E> = Pass | Fail(error: E)
}

/** The audio payload as the browser hands it around: a `Blob` with a byte size and a MIME type. */
module Blobs {
  datatype Blob = Blob(size: nat, mimeType: string)
}
