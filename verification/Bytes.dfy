/** Bytes as numbers. */
module Bytes {
  /** A byte made from a number stands for it. */
  lemma ByteValue(n: nat)
    requires n < 256
    ensures (n as bv8) as int == n
  {
  }
}
