/** Optional values and results with an error, used wherever the source has null or throws. */
module Wrappers {

  /** A value that may be absent; `None` stands for a null reference. */
  datatype Option<+T> = None | Some(value: T)

  /** The outcome of an operation that either returns a value or throws `error`. */
  datatype Result<+T, +E> = Success(value: T) | Failure(error: E)

  /** The empty or one-element sequence holding an optional value. */
  function OptionToSeq<T>(o: Option<T>): (s: seq<T>)
    ensures |s| <= 1
    ensures o.Some? <==> |s| == 1
    ensures o.Some? ==> s[0] == o.value
  {
    if o.Some? then [o.value] else []
  }
}
