/** Optional values (JavaScript's `undefined`), results with an error path, and the exception they model. */
module Wrappers {

  /** `None` stands for a property that is `undefined` or `null`. */
  datatype Option<+T> = None | Some(value: T) {
    /** The `x ?? default` operator. */
    function GetOr(default: T): T {
      match this
      case Some(v) => v
      case None => default
    }
  }

  datatype Result<+R, +E> = Success(value: R) | Failure(error: E)

  /** The exception JavaScript throws when a property of `undefined` is read. */
  datatype ScriptError = TypeError

  /** A list in which no value occurs twice. */
  predicate NoDuplicates<T(==)>(s: seq<T>) {
    forall i, j :: 0 <= i < j < |s| ==> s[i] != s[j]
  }
}
