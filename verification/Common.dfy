/** Shared by every module. */
module Common {
  datatype Option<+T> = None | Some(value: T)

  /** Move the last element of the second sequence out of a concatenation. */
  lemma LastOut<T>(a: seq<T>, b: seq<T>)
    requires b != []
    ensures a + b == (a + b[..|b| - 1]) + [b[|b| - 1]]
  {
  }
}
