/** Facts about sequences that the string and log proofs share. */
module Seqs {
  /** Concatenation is associative; the solver needs this step spelled out in long concatenations. */
  lemma ConcatAssoc<T>(a: seq<T>, b: seq<T>, c: seq<T>)
    ensures a + b + c == a + (b + c)
  {
  }
}
