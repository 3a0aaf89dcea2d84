/** Facts about sequences that several modules use. */
module Seqs {
  /** Concatenation is associative; stated once so that a proof can cite it instead of
      rediscovering it among its other facts. */
  lemma Associates<T>(a: seq<T>, b: seq<T>, c: seq<T>)
    ensures (a + b) + c == a + (b + c)
  {
  }
}
