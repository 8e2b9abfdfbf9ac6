/** What the datagrams of project2 look like on the wire, byte by byte, apart from the
    functions that write and read them. */
module Layout {
  import opened Bits
  import opened Crc16
  import opened CrcAlgebra
  import opened Polynomials
  import opened Segments
  import opened Stamps
  import opened Window
  import opened Wire

  /** The number that a byte stands for. */
  function Value(b: Byte): (n: nat)
    ensures n < 0x100
  {
    (if b[0] then 0x01 else 0) + (if b[1] then 0x02 else 0) + (if b[2] then 0x04 else 0) + (if b[3] then 0x08 else 0)
    + (if b[4] then 0x10 else 0) + (if b[5] then 0x20 else 0) + (if b[6] then 0x40 else 0) + (if b[7] then 0x80 else 0)
  }

  /** The number in n bytes of a buffer from byte i on, in network order. */
  function BigEndian(buf: seq<Byte>, i: nat, n: nat): nat
    requires i + n <= |buf|
  {
    if n == 0 then 0 else 0x100 * BigEndian(buf, i, n - 1) + Value(buf[i + n - 1])
  }

  // ---------------------------------------------------------------- fields

  lemma {:induction false} FromBitsConcat(x: Bits, y: Bits)
    ensures FromBits(x + y) == FromBits(x) * Exp2(|y|) + FromBits(y)
  {
    if y == [] {
      assert x + y == x;
    } else {
      var n := |y| - 1;
      assert (x + y)[..|x| + n] == x + y[..n] && (x + y)[|x| + n] == y[n];
      FromBitsConcat(x, y[..n]);
      Doubled(FromBits(x), Exp2(n));
    }
  }

  lemma Doubled(m: nat, n: nat)
    ensures m * (2 * n) == 2 * (m * n)
  {
  }

  /** Half a byte, highest bit first. */
  lemma FourBits(s: Bits)
    requires |s| == 4
    ensures FromBits(s) == (if s[0] then 8 else 0) + (if s[1] then 4 else 0) + (if s[2] then 2 else 0)
                           + (if s[3] then 1 else 0)
  {
    assert s[..3][..2] == s[..2] && s[..2][..1] == s[..1] && s[..1][..0] == [];
    assert FromBits(s[..1]) == if s[0] then 1 else 0;
    assert FromBits(s[..2]) == 2 * FromBits(s[..1]) + if s[1] then 1 else 0;
    assert FromBits(s[..3]) == 2 * FromBits(s[..2]) + if s[2] then 1 else 0;
  }

  lemma Sixteen()
    ensures Exp2(4) == 16
  {
  }

  lemma MirrorValue(b: Byte)
    ensures FromBits(Mirror(b)) == Value(b)
  {
    hide FromBits, Exp2;
    var high, low := [b[7], b[6], b[5], b[4]], [b[3], b[2], b[1], b[0]];
    assert Mirror(b) == high + low;
    FromBitsConcat(high, low);
    FourBits(high);
    FourBits(low);
    Sixteen();
  }

  lemma HalfValue(buf: seq<Byte>, i: nat)
    requires i + 2 <= |buf|
    ensures FromBits(HalfAt(buf, i)) == BigEndian(buf, i, 2)
  {
    hide Mirror, Value;
    FromBitsConcat(Mirror(buf[i]), Mirror(buf[i + 1]));
    MirrorValue(buf[i]);
    MirrorValue(buf[i + 1]);
    assert BigEndian(buf, i, 1) == Value(buf[i]);
    assert Exp2(8) == 0x100;
  }

  lemma WordValue(buf: seq<Byte>, i: nat)
    requires i + 4 <= |buf|
    ensures U32At(buf, i) == BigEndian(buf, i, 4)
  {
    FromBitsConcat(HalfAt(buf, i), HalfAt(buf, i + 2));
    HalfValue(buf, i);
    HalfValue(buf, i + 2);
    HalfAndWordLimits();
    hide FromBits, HalfAt, Value;
    assert BigEndian(buf, i, 3) == 0x100 * BigEndian(buf, i, 2) + Value(buf[i + 2]);
    assert BigEndian(buf, i + 2, 1) == Value(buf[i + 2]);
  }

  lemma {:induction false} SameNumber(x: Bits, y: Bits)
    requires |x| == |y|
    ensures FromBits(x) == FromBits(y) <==> x == y
  {
    if x == [] {
    } else {
      var n := |x| - 1;
      SameNumber(x[..n], y[..n]);
      assert x == x[..n] + [x[n]] && y == y[..n] + [y[n]];
    }
  }

  /** The test of both ends: the first two bytes are the checksum of the others. */
  lemma IntactExactly(d: seq<Byte>)
    requires |d| >= 2
    ensures Intact(d)
        <==> exists crc: Half :: IsChecksum(MessageBits(d[2..]), crc) && BigEndian(d, 0, 2) == FromBits(crc)
  {
    hide HalfAt, Crc, IsChecksum, FromBits;
    HalfValue(d, 0);
    CrcIsRemainder(d[2..], Crc(d[2..]));
    SameNumber(HalfAt(d, 0), Crc(d[2..]));
    forall crc: Half | IsChecksum(MessageBits(d[2..]), crc)
      ensures crc == Crc(d[2..])
    {
      CrcIsRemainder(d[2..], crc);
    }
  }

  // ---------------------------------------------------------------- reading

  /** Where the receiver finds the fields of a packet. */
  lemma DataFields(buf: seq<Byte>, n: nat)
    requires n <= |buf| && 12 <= |buf|
    ensures DataIn(buf, n) == if n < 2 || !Intact(buf[..n]) then None
                              else Some(Packet(BigEndian(buf, 2, 2), BigEndian(buf, 6, 2), BigEndian(buf, 8, 4),
                                               if n < 12 then [] else buf[12..n]))
  {
    hide Intact, BigEndian, HalfAt;
    HalfValue(buf, 2);
    HalfValue(buf, 6);
    WordValue(buf, 8);
  }

  /** Where the sender finds those of an acknowledgement. */
  lemma AckFields(buf: seq<Byte>, n: nat)
    requires n <= |buf| && 16 <= |buf|
    ensures AckIn(buf, n) == if n < 2 || !Intact(buf[..n]) then None
                             else Some(Ack(BigEndian(buf, 4, 2), BigEndian(buf, 6, 2), BigEndian(buf, 8, 4),
                                           BigEndian(buf, 12, 4)))
  {
    hide Intact, BigEndian, HalfAt;
    HalfValue(buf, 4);
    HalfValue(buf, 6);
    WordValue(buf, 8);
    WordValue(buf, 12);
  }

  // ---------------------------------------------------------------- writing

  /** A number that was written is the number there. */
  lemma Written16(d: seq<Byte>, i: nat, n: nat)
    requires i + 2 <= |d| && d[i..i + 2] == U16Bytes(n) && n < 0x1_0000
    ensures BigEndian(d, i, 2) == n
  {
    U16Read(d, i, n);
    HalfValue(d, i);
  }

  lemma Written32(d: seq<Byte>, i: nat, n: nat)
    requires i + 4 <= |d| && d[i..i + 4] == U32Bytes(n) && n < 0x1_0000_0000
    ensures BigEndian(d, i, 4) == n
  {
    U32Read(d, i, n);
    WordValue(d, i);
  }

  /** A data datagram: checksum, sequence number, zero, type, id, payload. */
  lemma DataLayout(p: Packet)
    requires PacketFits(p)
    ensures var d := EncodeData(p);
      && |d| == 12 + |p.payload| && Intact(d)
      && BigEndian(d, 2, 2) == p.seqNum && BigEndian(d, 4, 2) == 0 && BigEndian(d, 6, 2) == p.kind
      && BigEndian(d, 8, 4) == p.id && d[12..] == p.payload
  {
    hide U16Bytes, U32Bytes, HalfBytes, Crc, BigEndian, Intact;
    var d := EncodeData(p);
    SealedIntact(DataBody(p));
    DataParts(p);
    Written16(d, 2, p.seqNum);
    Written16(d, 4, 0);
    Written16(d, 6, p.kind);
    Written32(d, 8, p.id);
  }

  /** An acknowledgement: checksum, zero, number, type, seconds, microseconds. */
  lemma AckLayout(a: Ack)
    requires AckFits(a)
    ensures var d := EncodeAck(a);
      && |d| == 16 && Intact(d)
      && BigEndian(d, 2, 2) == 0 && BigEndian(d, 4, 2) == a.num && BigEndian(d, 6, 2) == a.kind
      && BigEndian(d, 8, 4) == a.sec && BigEndian(d, 12, 4) == a.usec
  {
    hide U16Bytes, U32Bytes, HalfBytes, Crc, BigEndian, Intact;
    var d := EncodeAck(a);
    SealedIntact(AckBody(a));
    AckParts(a);
    Written16(d, 2, 0);
    Written16(d, 4, a.num);
    Written16(d, 6, a.kind);
    Written32(d, 8, a.sec);
    Written32(d, 12, a.usec);
  }

  /** Packet i of a file as it is sent, and sent again. */
  lemma PacketLayout(file: seq<Byte>, i: nat)
    requires i <= |file| / 32768 && |file| / 32768 + 1 < 0x1_0000_0000
    ensures var d := EncodeData(PacketOf(file, i));
      && |d| >= 12 && Intact(d)
      && BigEndian(d, 2, 2) == i % 16 && BigEndian(d, 4, 2) == 0 && BigEndian(d, 8, 4) == i + 1
      && BigEndian(d, 6, 2) == (if i == |file| / 32768 then 4 else 2)
      && d[12..] == file[32768 * i..if i == |file| / 32768 then |file| else 32768 * (i + 1)]
  {
    hide BigEndian, Intact, EncodeData;
    DataLayout(PacketOf(file, i));
  }

  /** The acknowledgement of a receiver at sequence number laSeq: the number before it, and
      the clock in seconds and microseconds. */
  lemma AcknowledgementLayout(laSeq: nat, clock: nat)
    requires laSeq < 16
    ensures var d := EncodeAck(MakeAck(laSeq, clock));
      && |d| == 16 && Intact(d)
      && BigEndian(d, 2, 2) == 0 && BigEndian(d, 4, 2) == (laSeq + 15) % 16 && BigEndian(d, 6, 2) == 1
      && BigEndian(d, 8, 4) == clock / 1_000_000 % 0x1_0000_0000 && BigEndian(d, 12, 4) == clock % 1_000_000
  {
    hide BigEndian, Intact, EncodeAck;
    AckLayout(MakeAck(laSeq, clock));
  }
}
