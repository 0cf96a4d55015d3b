/** Option and Result, the two failure-compatible wrappers the model uses. */
module Wrappers {

  datatype Option<+T> = None | Some(value: T) {
    predicate IsFailure() { None? }

    function PropagateFailure<U>(): Option<U>
      requires None?
    {
      None
    }

    function Extract(): T
      requires Some?
    {
      value
    }

    function GetOr(default: T): T {
      match this
      case Some(v) => v
      case None => default
    }
  }

  datatype Result<+T, +E> = Success(value: T) | Failure(error: E) {
    predicate IsFailure() { Failure? }

    function PropagateFailure<U>(): Result<U, E>
      requires Failure?
    {
      Failure(error)
    }

    function Extract(): T
      requires Success?
    {
      value
    }
  }
}

/** The exceptions the service raises, one constructor per distinct cause. */
module Failures {

  datatype Error =
    | EmptyPointIds            // ValueError / HTTP 400 "point_ids cannot be empty"
    | NoValidFilterConditions  // ValueError "No valid filter conditions provided"
    | StoreUnavailable         // the document store's client raised
    | MetadataNotADict         // AttributeError: `.get` on a metadata value that is not a dict
    | MalformedDate            // `len`, slicing or `"20" + ...` raising on a non-string date
    | UnhashableCode           // TypeError: `set()` over a list- or dict-valued package_insert_no
}
