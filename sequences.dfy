/** A fact about sequences the proofs need at fixed points. */
module Sequences {
  /** Concatenation is associative. The solver knows it, but finding the
      regrouping in a larger goal can cost it more than stating it does. */
  lemma AppendAssociates<T>(a: seq<T>, b: seq<T>, c: seq<T>)
    ensures a + b + c == a + (b + c)
  {
  }
}
