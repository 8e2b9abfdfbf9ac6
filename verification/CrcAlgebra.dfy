/** What the checksum of project2/crc16.h computes and which errors it detects.
    A bit sequence stands for a polynomial over GF(2), highest coefficient first. */
module CrcAlgebra {
  import opened Bits
  import opened Crc16
  import opened Polynomials

  // ---------------------------------------------------------------- linearity

  lemma {:induction false} ClockLinear(r: Half, s: Half, a: bool, b: bool)
    ensures Clock(Xor(r, s), a != b) == Xor(Clock(r, a), Clock(s, b))
  {
  }

  lemma {:induction false} ClockAllLinear(r: Half, s: Half, a: Bits, b: Bits)
    requires |a| == |b|
    ensures ClockAll(Xor(r, s), Xor(a, b)) == Xor(ClockAll(r, a), ClockAll(s, b))
  {
    if a == [] {
    } else {
      var n := |a| - 1;
      ClockAllLinear(r, s, a[..n], b[..n]);
      assert Xor(a, b)[..n] == Xor(a[..n], b[..n]);
      ClockLinear(ClockAll(r, a[..n]), ClockAll(s, b[..n]), a[n], b[n]);
    }
  }

  lemma {:induction false} ResidueLinear(a: Bits, b: Bits)
    requires |a| == |b|
    ensures Residue(Xor(a, b)) == Xor(Residue(a), Residue(b))
  {
    assert Xor(Zeros(16), Zeros(16)) == Zeros(16);
    assert Xor(a + Zeros(16), b + Zeros(16)) == Xor(a, b) + Zeros(16);
    ClockAllLinear(Zeros(16), Zeros(16), a + Zeros(16), b + Zeros(16));
  }

  function XorBytes(a: seq<Byte>, b: seq<Byte>): (s: seq<Byte>)
    requires |a| == |b|
    ensures |s| == |a| && forall i :: 0 <= i < |s| ==> s[i] == Xor(a[i], b[i])
  {
    seq(|a|, i requires 0 <= i < |a| => Xor(a[i], b[i]))
  }

  lemma {:induction false} MessageBitsXor(a: seq<Byte>, b: seq<Byte>)
    requires |a| == |b|
    ensures MessageBits(XorBytes(a, b)) == Xor(MessageBits(a), MessageBits(b))
  {
    if a == [] {
    } else {
      var n := |a| - 1;
      MessageBitsXor(a[..n], b[..n]);
      assert XorBytes(a, b)[..n] == XorBytes(a[..n], b[..n]);
    }
  }

  /** The checksum of the XOR of two equally long messages is the XOR of their checksums. */
  lemma {:induction false} CrcLinear(a: seq<Byte>, b: seq<Byte>)
    requires |a| == |b|
    ensures Crc(XorBytes(a, b)) == Xor(Crc(a), Crc(b))
  {
    MessageBitsXor(a, b);
    ResidueLinear(MessageBits(a), MessageBits(b));
  }

  // ---------------------------------------------------------------- division

  /** The constant of the source is the generator below its leading term. */
  lemma GeneratorIsPolynomial()
    ensures Generator() == [true] + POLYNOMIAL
  {
  }

  lemma {:induction false} TimesAppend(q: Bits, t: bool)
    ensures Times(q + [t]) == Xor(Times(q) + [false], Multiple(|q|, t))
  {
  }

  /** The bits that leave the register are a quotient, the register the remainder. */
  lemma {:induction false} RegisterDivides(s: Bits) returns (q: Bits)
    ensures |q| == |s| && Zeros(16) + s == Xor(Times(q), Zeros(|s|) + ClockAll(Zeros(16), s))
  {
    if s == [] {
      q := [];
    } else {
      var n := |s| - 1;
      var p := RegisterDivides(s[..n]);
      var reg := ClockAll(Zeros(16), s[..n]);
      q := p + [reg[0]];
      TimesAppend(p, reg[0]);
      DivisionStep(s[..n], s[n], Times(p), reg);
      assert s[..n] + [s[n]] == s;
    }
  }

  lemma {:induction false} ReductionStep(n: nat, reg: Half, b: bool)
    ensures Xor(Multiple(n, reg[0]), Zeros(n + 1) + Clock(reg, b)) == Zeros(n) + reg + [b]
  {
    GeneratorIsPolynomial();
  }

  lemma {:induction false} XorAssociative(a: Bits, b: Bits, c: Bits)
    requires |a| == |b| == |c|
    ensures Xor(Xor(a, b), c) == Xor(a, Xor(b, c))
  {
  }

  lemma {:induction false} XorShuffle(a: Bits, b: Bits, c: Bits, d: Bits)
    requires |a| == |b| == |c| == |d|
    ensures Xor(Xor(a, b), Xor(c, d)) == Xor(Xor(a, c), Xor(b, d))
  {
  }

  lemma {:induction false} DivisionStep(s: Bits, b: bool, product: Bits, reg: Half)
    requires |product| == |s| + 16 && Zeros(16) + s == Xor(product, Zeros(|s|) + reg)
    ensures Zeros(16) + (s + [b])
         == Xor(Xor(product + [false], Multiple(|s|, reg[0])), Zeros(|s| + 1) + Clock(reg, b))
  {
    ReductionStep(|s|, reg, b);
    XorAssociative(product + [false], Multiple(|s|, reg[0]), Zeros(|s| + 1) + Clock(reg, b));
    assert Xor(product + [false], Zeros(|s|) + reg + [b]) == Xor(product, Zeros(|s|) + reg) + [b];
    assert Zeros(16) + (s + [b]) == (Zeros(16) + s) + [b];
  }

  lemma {:induction false} MultipleLinear(n: nat, s: bool, t: bool)
    ensures Multiple(n, s != t) == Xor(Multiple(n, s), Multiple(n, t))
  {
  }

  lemma {:induction false} TimesLinear(p: Bits, q: Bits)
    requires |p| == |q|
    ensures Times(Xor(p, q)) == Xor(Times(p), Times(q))
  {
    if p == [] {
    } else {
      var n := |p| - 1;
      TimesLinear(p[..n], q[..n]);
      assert Xor(p, q)[..n] == Xor(p[..n], q[..n]);
      MultipleLinear(n, p[n], q[n]);
      XorShuffle(Times(p[..n]) + [false], Multiple(n, p[n]), Times(q[..n]) + [false], Multiple(n, q[n]));
      assert Xor(Times(p[..n]) + [false], Times(q[..n]) + [false]) == Xor(Times(p[..n]), Times(q[..n])) + [false];
    }
  }

  /** A non-zero multiple of the generator has a coefficient of degree 16 or more. */
  lemma {:induction false} MultipleIsLarge(q: Bits)
    requires q != Zeros(|q|)
    ensures exists i :: 0 <= i < |q| && Times(q)[i]
  {
    var n := |q| - 1;
    var p := q[..n];
    if p == Zeros(n) {
      assert q[n];
      TimesZero(n);
      assert Times(q)[n];
    } else {
      MultipleIsLarge(p);
      var i :| 0 <= i < n && Times(p)[i];
      assert Times(q)[i];
    }
  }

  lemma {:induction false} TimesZero(n: nat)
    ensures Times(Zeros(n)) == Zeros(n + 16)
  {
    if n == 0 {
    } else {
      TimesZero(n - 1);
      assert Zeros(n)[..n - 1] == Zeros(n - 1);
    }
  }

  /** The register holds the remainder of m(x) * x^16 by the generator, and no other
      16-bit value does. */
  lemma {:induction false} ResidueIsRemainder(m: Bits, r: Half)
    ensures r == Residue(m) <==> IsRemainder(m, r)
  {
    var s := m + Zeros(16);
    var q0 := RegisterDivides(s);
    assert Zeros(16) + s == Zeros(16) + m + Zeros(16);
    assert Divides(m, q0, Residue(m));
    forall q: Bits | Divides(m, q, r)
      ensures r == Residue(m)
    {
      RemainderUnique(m, q0, Residue(m), q, r);
    }
  }

  /** The checksum is the reflected remainder by the generator, and nothing else is. */
  lemma CrcIsRemainder(data: seq<Byte>, crc: Half)
    ensures crc == Crc(data) <==> IsChecksum(MessageBits(data), crc)
  {
    var m := MessageBits(data);
    ResidueIsRemainder(m, Residue(m));
    if r: Half :| IsRemainder(m, r) && forall j :: 0 <= j < 16 ==> crc[j] == r[15 - j] {
      ResidueIsRemainder(m, r);
      assert Mirror(r) == crc;
    }
  }

  lemma {:induction false} RemainderUnique(m: Bits, p: Bits, a: Half, q: Bits, b: Half)
    requires Divides(m, p, a) && Divides(m, q, b)
    ensures a == b
  {
    var n := |q|;
    TimesLinear(p, q);
    var d := Times(Xor(p, q));
    var lhs := Zeros(16) + m + Zeros(16);
    forall i | 0 <= i < n + 16
      ensures d[i] == (Zeros(n) + Xor(a, b))[i]
    {
      assert lhs[i] == (Times(p)[i] != (Zeros(n) + a)[i]);
      assert lhs[i] == (Times(q)[i] != (Zeros(n) + b)[i]);
    }
    if Xor(p, q) != Zeros(n) {
      MultipleIsLarge(Xor(p, q));
      assert false;
    }
    TimesZero(n);
    forall i | 0 <= i < 16
      ensures a[i] == b[i]
    {
      assert d[n + i] == (Zeros(n) + Xor(a, b))[n + i];
    }
  }

  // ---------------------------------------------------------------- burst errors

  lemma {:induction false} SilentRegister(reg: Half, n: nat)
    ensures ClockAll(reg, Zeros(n)) == Zeros(16) <==> reg == Zeros(16)
  {
    if n == 0 {
    } else {
      SilentRegister(reg, n - 1);
      assert Zeros(n)[..n - 1] == Zeros(n - 1);
      var r := ClockAll(reg, Zeros(n - 1));
      var c := Clock(r, false);
      assert r[0] ==> c[15];
      assert !r[0] ==> forall i :: 0 <= i < 15 ==> c[i] == r[i + 1];
      if c == Zeros(16) {
        forall i | 0 <= i < 16 ensures !r[i] {
          if i > 0 { assert c[i - 1] == r[i]; }
        }
        assert r == Zeros(16);
      }
    }
  }

  /** Up to sixteen bits fit into an empty register unreduced. */
  lemma {:induction false} ShortStream(w: Bits)
    requires |w| <= 16
    ensures ClockAll(Zeros(16), w) == Zeros(16 - |w|) + w
  {
    if w == [] {
    } else {
      ShortStream(w[..|w| - 1]);
    }
  }

  lemma {:induction false} ClockAllConcat(reg: Half, a: Bits, b: Bits)
    ensures ClockAll(reg, a + b) == ClockAll(ClockAll(reg, a), b)
  {
    if b == [] {
      assert a + b == a;
    } else {
      var n := |b| - 1;
      ClockAllConcat(reg, a, b[..n]);
      assert (a + b)[..|a| + n] == a + b[..n];
    }
  }

  /** a and b differ, and only inside the 16 bits that start at `start`. */
  ghost predicate BurstError(a: Bits, b: Bits, start: nat) {
    && |a| == |b| && a != b
    && forall i :: 0 <= i < |a| && a[i] != b[i] ==> start <= i < start + 16
  }

  lemma {:induction false} WindowSurvives(start: nat, w: Bits, rest: nat)
    requires |w| <= 16 && w != Zeros(|w|)
    ensures ClockAll(Zeros(16), Zeros(start) + w + Zeros(rest)) != Zeros(16)
  {
    ClockAllConcat(Zeros(16), Zeros(start) + w, Zeros(rest));
    ClockAllConcat(Zeros(16), Zeros(start), w);
    SilentRegister(Zeros(16), start);
    ShortStream(w);
    var reg := Zeros(16 - |w|) + w;
    assert reg[16 - |w|..] == w && Zeros(16)[16 - |w|..] == Zeros(|w|);
    SilentRegister(reg, rest);
  }

  lemma {:induction false} ResidueOfBurst(e: Bits, start: nat)
    requires e != Zeros(|e|)
    requires forall i :: 0 <= i < |e| && e[i] ==> start <= i < start + 16
    ensures Residue(e) != Zeros(16)
  {
    var k :| 0 <= k < |e| && e[k];
    var stop := if start + 16 <= |e| then start + 16 else |e|;
    var w := e[start..stop];
    assert w[k - start];
    assert e + Zeros(16) == Zeros(start) + w + Zeros(|e| - stop + 16);
    WindowSurvives(start, w, |e| - stop + 16);
  }

  /** Every non-zero error confined to sixteen consecutive bits changes the checksum. */
  lemma {:induction false} BurstDetected(a: seq<Byte>, b: seq<Byte>, start: nat)
    requires BurstError(MessageBits(a), MessageBits(b), start)
    ensures Crc(a) != Crc(b)
  {
    var x, y := MessageBits(a), MessageBits(b);
    var e := Xor(x, y);
    var k :| 0 <= k < |x| && x[k] != y[k];
    assert e[k];
    ResidueOfBurst(e, start);
    ResidueLinear(x, y);
    var j :| 0 <= j < 16 && Residue(x)[j] != Residue(y)[j];
    assert Crc(a)[15 - j] != Crc(b)[15 - j];
  }

  /** Exactly which errors go unnoticed: the multiples of the generator. */
  lemma {:induction false} UndetectedExactly(a: seq<Byte>, b: seq<Byte>)
    requires |a| == |b|
    ensures Crc(a) == Crc(b) <==> IsRemainder(Xor(MessageBits(a), MessageBits(b)), Zeros(16))
  {
    var x, y := MessageBits(a), MessageBits(b);
    ResidueLinear(x, y);
    ResidueIsRemainder(Xor(x, y), Zeros(16));
    SameMirror(Residue(x), Residue(y));
    XorIsZero(Residue(x), Residue(y));
  }

  lemma {:induction false} SameMirror(r: Half, s: Half)
    ensures Mirror(r) == Mirror(s) <==> r == s
  {
    assert Mirror(Mirror(r)) == r && Mirror(Mirror(s)) == s;
  }

  lemma {:induction false} XorIsZero(r: Half, s: Half)
    ensures Xor(r, s) == Zeros(16) <==> r == s
  {
  }

  // ---------------------------------------------------------------- seventeen bits

  /** The seventeenth bit reduces the register, if the first one was set. */
  lemma {:induction false} SeventeenthBit(w: Bits)
    requires |w| == 17
    ensures ClockAll(Zeros(16), w) == Zeros(16) <==> w == Generator() || w == Zeros(17)
  {
    hide Xor, Generator, HasTerm, ClockAll, Clock;
    FullRegister(w);
    XorIsZero(w[1..], POLYNOMIAL);
    GeneratorIsPolynomial();
    FirstBit(w);
  }

  lemma FullRegister(w: Bits)
    requires |w| == 17
    ensures ClockAll(Zeros(16), w) == if w[0] then Xor(w[1..], POLYNOMIAL) else w[1..]
  {
    hide ClockAll, Xor;
    var front := w[..16];
    ShortStream(front);
    assert Zeros(0) + front == front && w == front + [w[16]];
    ClockAppend(Zeros(16), front, w[16]);
    assert front[1..] + [w[16]] == w[1..];
  }

  lemma FirstBit(w: Bits)
    requires |w| == 17
    ensures w == [w[0]] + w[1..]
    ensures w == [true] + POLYNOMIAL <==> w[0] && w[1..] == POLYNOMIAL
    ensures w == Zeros(17) <==> !w[0] && w[1..] == Zeros(16)
  {
    assert w == [w[0]] + w[1..] && [false] + Zeros(16) == Zeros(17);
    assert ([true] + POLYNOMIAL)[1..] == POLYNOMIAL && Zeros(17)[1..] == Zeros(16);
  }

  /** The bits of a message with the pattern w at start flipped. */
  ghost predicate FlippedAt(a: Bits, b: Bits, start: nat, w: Bits) {
    |a| == |b| && start + |w| <= |a| && Xor(a, b) == Zeros(start) + w + Zeros(|a| - start - |w|)
  }

  /** Sixteen bits are the limit: of the errors confined to seventeen consecutive bits,
      anywhere in a message of any length, exactly the generator itself goes unnoticed. */
  lemma {:induction false} SeventeenExactly(a: seq<Byte>, b: seq<Byte>, start: nat, w: Bits)
    requires FlippedAt(MessageBits(a), MessageBits(b), start, w) && |w| == 17 && w != Zeros(17)
    ensures Crc(a) == Crc(b) <==> w == Generator()
  {
    var x, y := MessageBits(a), MessageBits(b);
    var rest := |x| - start - 17;
    assert Zeros(start) + w + Zeros(rest) + Zeros(16) == Zeros(start) + w + Zeros(rest + 16);
    ClockAllConcat(Zeros(16), Zeros(start) + w, Zeros(rest + 16));
    ClockAllConcat(Zeros(16), Zeros(start), w);
    SilentRegister(Zeros(16), start);
    SeventeenthBit(w);
    SilentRegister(ClockAll(Zeros(16), w), rest + 16);
    ResidueLinear(x, y);
    SameMirror(Residue(x), Residue(y));
    XorIsZero(Residue(x), Residue(y));
  }

  function Pack(bits: Bits): (data: seq<Byte>)
    requires |bits| % 8 == 0
    ensures 8 * |data| == |bits|
  {
    seq(|bits| / 8, i requires 0 <= i < |bits| / 8 => bits[8 * i..8 * i + 8])
  }

  lemma {:induction false} PackedBits(bits: Bits)
    requires |bits| % 8 == 0
    ensures MessageBits(Pack(bits)) == bits
  {
    var data := Pack(bits);
    forall j | 0 <= j < |bits|
      ensures MessageBits(data)[j] == bits[j]
    {
      MessageBit(data, j / 8, j % 8);
    }
  }

  /** Such an error exists at every place of every message that has room for it. */
  lemma {:induction false} SeventeenUnnoticed(a: seq<Byte>, start: nat) returns (b: seq<Byte>)
    requires start + 17 <= 8 * |a|
    ensures FlippedAt(MessageBits(a), MessageBits(b), start, Generator()) && a != b && Crc(a) == Crc(b)
  {
    var x := MessageBits(a);
    var e := Zeros(start) + Generator() + Zeros(|x| - start - 17);
    b := Pack(Xor(x, e));
    PackedBits(Xor(x, e));
    assert Xor(x, Xor(x, e)) == e;
    assert e[start];
    assert Generator()[0] && !Zeros(17)[0];
    SeventeenExactly(a, b, start, Generator());
  }

  // ---------------------------------------------------------------- parity

  function Ones(s: Bits): nat {
    if s == [] then 0 else Ones(s[..|s| - 1]) + (if s[|s| - 1] then 1 else 0)
  }

  lemma {:induction false} OnesConcat(a: Bits, b: Bits)
    ensures Ones(a + b) == Ones(a) + Ones(b)
  {
    if b == [] {
      assert a + b == a;
    } else {
      OnesConcat(a, b[..|b| - 1]);
      assert (a + b)[..|a + b| - 1] == a + b[..|b| - 1];
    }
  }

  lemma {:induction false} OnesXor(a: Bits, b: Bits)
    requires |a| == |b|
    ensures Ones(Xor(a, b)) % 2 == (Ones(a) + Ones(b)) % 2
  {
    if a == [] {
    } else {
      var n := |a| - 1;
      OnesXor(a[..n], b[..n]);
      assert Xor(a, b)[..n] == Xor(a[..n], b[..n]);
    }
  }

  lemma {:induction false} OnesZeros(n: nat)
    ensures Ones(Zeros(n)) == 0
  {
    if n == 0 {
    } else {
      OnesZeros(n - 1);
      assert Zeros(n)[..n - 1] == Zeros(n - 1);
    }
  }

  lemma {:induction false} OnesMirror(s: Bits)
    ensures Ones(Mirror(s)) == Ones(s)
  {
    if s == [] {
    } else {
      var n := |s| - 1;
      OnesMirror(s[..n]);
      assert Mirror(s) == [s[n]] + Mirror(s[..n]);
      OnesConcat([s[n]], Mirror(s[..n]));
    }
  }

  lemma {:induction false} OnesPolynomial()
    ensures Ones(POLYNOMIAL) == 3
  {
    assert POLYNOMIAL == Zeros(0) + [true] + Zeros(12) + [true, false, true];
    OnesZeros(0);
    OnesZeros(12);
    OnesConcat(Zeros(0), [true]);
    OnesConcat(Zeros(0) + [true], Zeros(12));
    OnesConcat(Zeros(0) + [true] + Zeros(12), [true, false, true]);
    assert [true, false, true][..2] == [true, false];
    assert [true, false][..1] == [true];
    assert Ones([true, false]) == Ones([true]);
  }

  lemma {:induction false} ClockParity(reg: Half, bit: bool)
    ensures Ones(Clock(reg, bit)) % 2 == (Ones(reg) + if bit then 1 else 0) % 2
  {
    assert reg == [reg[0]] + reg[1..];
    OnesConcat([reg[0]], reg[1..]);
    OnesConcat(reg[1..], [bit]);
    OnesPolynomial();
    OnesXor(reg[1..] + [bit], POLYNOMIAL);
  }

  lemma {:induction false} ClockAllParity(reg: Half, bits: Bits)
    ensures Ones(ClockAll(reg, bits)) % 2 == (Ones(reg) + Ones(bits)) % 2
  {
    if bits == [] {
    } else {
      var n := |bits| - 1;
      ClockAllParity(reg, bits[..n]);
      ClockParity(ClockAll(reg, bits[..n]), bits[n]);
    }
  }

  /** The checksum has an odd number of ones exactly when the message has. */
  lemma {:induction false} CrcParity(data: seq<Byte>)
    ensures Ones(Crc(data)) % 2 == Ones(MessageBits(data)) % 2
  {
    var bits := MessageBits(data);
    ClockAllParity(Zeros(16), bits + Zeros(16));
    OnesZeros(16);
    OnesConcat(bits, Zeros(16));
    OnesMirror(Residue(bits));
  }

  lemma {:induction false} EvenPair(data: seq<Byte>)
    ensures Ones(Crc(data) + MessageBits(data)) % 2 == 0
  {
    OnesConcat(Crc(data), MessageBits(data));
    CrcParity(data);
  }

  /** An odd number of flipped bits, counted over checksum and message together,
      never yields a matching pair again. */
  lemma {:induction false} OddFlipsDetected(data: seq<Byte>, data': seq<Byte>, crc': Half)
    requires |data| == |data'|
    requires Ones(Xor(Crc(data) + MessageBits(data), crc' + MessageBits(data'))) % 2 == 1
    ensures crc' != Crc(data')
  {
    var x, y := MessageBits(data), MessageBits(data');
    EvenPair(data);
    OnesXor(Crc(data) + x, crc' + y);
    if crc' == Crc(data') {
      EvenPair(data');
      assert false;
    }
  }
}
