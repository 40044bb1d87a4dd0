/** Optional and fallible values, standing in for Java's `null` and for
    exceptions thrown at construction time. */
module Wrappers {

  /** A value that may be absent; `None` plays the part of a Java `null`. */
  datatype Option<+T> = None | Some(value: T)

  /** Either a constructed value or the error that prevented construction. */
  datatype Result<+T, +E> = Success(value: T) | Failure(error: E)
}
