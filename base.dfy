/** Optional values and the success-or-error outcome of an operation that may throw. */
module Base {

  datatype Option<+T> = None | Some(value: T) {
    /** `x ?? d`: the value when present, otherwise the default. */
    function GetOr(d: T): T {
      match this
      case Some(v) => v
      case None => d
    }
  }

  /** A call that returns `value` or throws an error whose text is `message`. */
  datatype Result<+T> = Ok(value: T) | Err(message: string)

  /** Appending in two steps is appending the joined pieces. */
  lemma Regroup<T>(a: seq<T>, b: seq<T>, c: seq<T>)
    ensures a + b + c == a + (b + c)
  {
  }
}
