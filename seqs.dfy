/** Facts about sequences that the proofs elsewhere call on by name. */
module Seqs {

  /**
   * Regrouping a concatenation. Proved here, away from any recursive
   * function, where it is cheap for the solver.
   */
  lemma ConcatAssoc<T>(a: seq<T>, b: seq<T>, c: seq<T>)
    ensures (a + b) + c == a + (b + c)
  {
  }
}
