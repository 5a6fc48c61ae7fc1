/**
 * Powers of two and the size of a 32-bit word, shared by the two
 * 32-bit hashes of the gate (the Mulberry32 stream and the djb2
 * fingerprint hash).
 */
module Bits {

  /** 2^32, the modulus of every 32-bit wrap-around. */
  const Word: nat := 0x1_0000_0000

  function Pow2(n: nat): nat
  {
    if n == 0 then 1 else 2 * Pow2(n - 1)
  }

  lemma {:induction false} Pow2Add(a: nat, b: nat)
    ensures Pow2(a + b) == Pow2(a) * Pow2(b)
  {
    if a > 0 {
      Pow2Add(a - 1, b);
    }
  }

  lemma Pow2Of32()
    ensures Pow2(32) == Word
  {
    assert Pow2(4) == 16;
    Pow2Add(4, 4);
    Pow2Add(8, 8);
    Pow2Add(16, 16);
  }
}
