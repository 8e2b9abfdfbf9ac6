/** Machine words as sequences of bits. */
module Bits {

  type Bits = seq<bool>

  /** A byte, lowest bit first: b[k] is (b >> k) & 1. */
  type Byte = s: seq<bool> | |s| == 8 witness [false, false, false, false, false, false, false, false]

  /** An unsigned short, highest bit first: w[0] is w >> 15. */
  type Half = s: seq<bool> | |s| == 16
    witness [false, false, false, false, false, false, false, false,
             false, false, false, false, false, false, false, false]

  function Zeros(n: nat): (s: Bits)
    ensures |s| == n && forall i :: 0 <= i < n ==> !s[i]
  {
    seq(n, _ => false)
  }

  function Xor(a: Bits, b: Bits): (s: Bits)
    requires |a| == |b|
    ensures |s| == |a| && forall i :: 0 <= i < |s| ==> s[i] == (a[i] != b[i])
  {
    seq(|a|, i requires 0 <= i < |a| => a[i] != b[i])
  }

  function Mirror(s: Bits): (t: Bits)
    ensures |t| == |s| && forall i :: 0 <= i < |s| ==> t[i] == s[|s| - 1 - i]
  {
    seq(|s|, i requires 0 <= i < |s| => s[|s| - 1 - i])
  }

  /** w << 1, truncated to 16 bits. */
  function ShiftLeft(w: Half): Half {
    w[1..] + [false]
  }

  function Exp2(n: nat): (r: nat)
    ensures r > 0
  {
    if n == 0 then 1 else 2 * Exp2(n - 1)
  }

  /** The low `width` bits of n, highest first. */
  function ToBits(n: nat, width: nat): (s: Bits)
    ensures |s| == width
  {
    if width == 0 then [] else ToBits(n / 2, width - 1) + [n % 2 == 1]
  }

  function FromBits(s: Bits): nat {
    if s == [] then 0 else 2 * FromBits(s[..|s| - 1]) + (if s[|s| - 1] then 1 else 0)
  }

  lemma {:induction false} NumberRoundTrip(n: nat, width: nat)
    requires n < Exp2(width)
    ensures FromBits(ToBits(n, width)) == n
  {
    if width == 0 {
    } else {
      NumberRoundTrip(n / 2, width - 1);
      assert ToBits(n, width)[..width - 1] == ToBits(n / 2, width - 1);
    }
  }

  lemma HalfAndWordLimits()
    ensures Exp2(16) == 0x1_0000 && Exp2(32) == 0x1_0000_0000
  {
    assert Exp2(8) == 256;
    assert Exp2(16) == 256 * Exp2(8);
    assert Exp2(24) == 256 * Exp2(16);
    assert Exp2(32) == 256 * Exp2(24);
  }
}
