/** Definitions shared by several components. */
module Commons {

  /** A value that may be missing. */
  datatype Option<+T> = None | Some(value: T)

  /** The score below which a response counts as a semantic failure
      (quality/evaluator.go:33-37). */
  const ACCEPTABLE: real := 0.45

  /** The first `n` elements of `s`, or all of them. */
  function First<T>(n: nat, s: seq<T>): seq<T> {
    if |s| <= n then s else s[..n]
  }
}
