/** Option and Result values standing for Python's None and raised exceptions. */
module Results {

  datatype Option<+T> = None | Some(value: T) {
    function GetOr(default: T): T {
      match this
      case Some(v) => v
      case None => default
    }
  }

  /** A computation that either returns a value or raises; the failure carries
      the text of the exception (what `str(e)` gives). */
  datatype Result<+R, +E> = Success(value: R) | Failure(error: E)
}
