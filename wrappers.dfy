/** Failure-carrying wrappers shared by the modules of this model. */
module Wrappers {

  /** An optional value: JavaScript's `undefined` versus a present value. */
  datatype Option<+T> = None | Some(value: T)

  /** The result of a step that may throw: a value, or the message of the error raised. */
  datatype Result<+T> = Ok(value: T) | Err(error: string)

  /** The elements of an option as a sequence of zero or one element. */
  function AsSeq<T>(o: Option<T>): (s: seq<T>)
    ensures |s| <= 1
    ensures o.Some? <==> |s| == 1
    ensures o.Some? ==> s[0] == o.value
  {
    match o
    case None => []
    case Some(v) => [v]
  }
}
