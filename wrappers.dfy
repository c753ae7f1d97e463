/** Failure-carrying result types shared by the whole model. */
module Wrappers {

  /** A value that may be absent: the model of a JavaScript `undefined`. */
  datatype Option<+T> = None | Some(value: T)

  /** The outcome of an operation that may throw: `Failure` carries the error message. */
  datatype Result<+T> = Success(value: T) | Failure(error: string)

  function Min(a: int, b: int): int
  {
    if a <= b then a else b
  }

  /** A non-empty sequence is its front followed by its last element. */
  lemma SplitLast<T>(s: seq<T>)
    requires |s| > 0
    ensures s == s[..|s| - 1] + [s[|s| - 1]]
  {
  }

  /** Concatenation is associative. */
  lemma AppendAssociates<T>(a: seq<T>, b: seq<T>, c: seq<T>)
    ensures a + b + c == a + (b + c)
  {
  }
}
