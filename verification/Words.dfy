/** Unsigned machine words: what is left of a number in 16 or 32 bits. */
module Words {

  function U16(n: int): (r: nat)
    ensures r <= 0xffff
    ensures 0 <= n <= 0xffff ==> r == n
  {
    n % 0x1_0000
  }

  function U32(n: int): (r: nat)
    ensures r < 0x1_0000_0000
    ensures 0 <= n < 0x1_0000_0000 ==> r == n
  {
    n % 0x1_0000_0000
  }

  /** Whole multiples of 2^16 do not show in 16 bits ... */
  lemma MultiplesVanish(m: int, n: int, k: int)
    requires m == n + 0x1_0000 * k
    ensures U16(m) == U16(n)
  {
  }

  /** ... and a word of 32 bits differs by such a multiple. */
  lemma WiderWord(n: int, m: int)
    ensures U16(m + U32(n)) == U16(m + n)
  {
    assert U32(n) == n - 0x1_0000 * (0x1_0000 * (n / 0x1_0000_0000));
    MultiplesVanish(m + U32(n), m + n, -(0x1_0000 * (n / 0x1_0000_0000)));
  }
}
