/** Polynomials over GF(2) as bit sequences, highest coefficient first, and division by the
    generator of the checksum. */
module Polynomials {
  import opened Bits

  /** Is there a term of degree k in x^16 + x^15 + x^2 + 1? */
  predicate HasTerm(k: nat) {
    k == 16 || k == 15 || k == 2 || k == 0
  }

  function Generator(): (s: Bits)
    ensures |s| == 17 && forall i :: 0 <= i < 17 ==> (s[i] <==> HasTerm(16 - i))
  {
    seq(17, i requires 0 <= i < 17 => HasTerm(16 - i))
  }

  /** The generator times t, placed after n leading zeros. */
  function Multiple(n: nat, t: bool): (s: Bits)
    ensures |s| == n + 17
  {
    Zeros(n) + (if t then Generator() else Zeros(17))
  }

  /** Schoolbook product of q and the generator, with |q| + 16 coefficients. */
  function Times(q: Bits): (s: Bits)
    ensures |s| == |q| + 16
  {
    if q == [] then Zeros(16)
    else Xor(Times(q[..|q| - 1]) + [false], Multiple(|q| - 1, q[|q| - 1]))
  }

  /** m(x) * x^16 == q(x) * generator + r(x), written with 16 leading zeros. */
  ghost predicate Divides(m: Bits, q: Bits, r: Half) {
    |q| == |m| + 16 && Zeros(16) + m + Zeros(16) == Xor(Times(q), Zeros(|q|) + r)
  }

  ghost predicate IsRemainder(m: Bits, r: Half) {
    exists q: Bits :: Divides(m, q, r)
  }

  /** The checksum of a message: bit j, counted from the top, is the coefficient of x^j of
      the remainder. */
  ghost predicate IsChecksum(m: Bits, crc: Half) {
    exists r: Half :: IsRemainder(m, r) && forall j :: 0 <= j < 16 ==> crc[j] == r[15 - j]
  }
}
