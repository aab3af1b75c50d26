/** Small definitions shared by the other modules. */
module Wrappers {

  datatype Option<+T> = None | Some(value: T)

  /**
   * Concatenation is associative. Stated once with nothing else in scope,
   * so that callers regroup concatenations of long terms without the
   * element-by-element argument.
   */
  lemma ConcatAssoc<T>(a: seq<T>, b: seq<T>, c: seq<T>)
    ensures a + (b + c) == (a + b) + c
  {
  }
}
