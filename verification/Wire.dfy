/** Datagram layouts of project2/sendfile.c and project2/recvfile.c. */
module Wire {
  import opened Bits
  import opened Crc16
  import opened CrcAlgebra
  import opened CrcLoop
  import opened Polynomials

  datatype Option<+T> = None | Some(value: T)

  /** Type 2 carries data (or the file name, with id 0), type 4 the last data. */
  datatype Packet = Packet(seqNum: nat, kind: nat, id: nat, payload: seq<Byte>)

  /** The two clock fields of an acknowledgement are the receiver's seconds and
      microseconds. */
  datatype Ack = Ack(num: nat, kind: nat, sec: nat, usec: nat)

  const HEADER: nat := 12
  const ACK_LEN: nat := 16

  // ---------------------------------------------------------------- fields in network order

  function HalfBytes(w: Half): (s: seq<Byte>)
    ensures |s| == 2
  {
    [Mirror(w[..8]), Mirror(w[8..])]
  }

  function HalfAt(buf: seq<Byte>, i: nat): Half
    requires i + 2 <= |buf|
  {
    Mirror(buf[i]) + Mirror(buf[i + 1])
  }

  function U16Bytes(n: nat): (s: seq<Byte>)
    ensures |s| == 2
  {
    HalfBytes(ToBits(n, 16))
  }

  function U16At(buf: seq<Byte>, i: nat): nat
    requires i + 2 <= |buf|
  {
    FromBits(HalfAt(buf, i))
  }

  function U32Bytes(n: nat): (s: seq<Byte>)
    ensures |s| == 4
  {
    var w := ToBits(n, 32);
    HalfBytes(w[..16]) + HalfBytes(w[16..])
  }

  function U32At(buf: seq<Byte>, i: nat): nat
    requires i + 4 <= |buf|
  {
    FromBits(HalfAt(buf, i) + HalfAt(buf, i + 2))
  }

  lemma HalfRead(buf: seq<Byte>, i: nat, w: Half)
    requires i + 2 <= |buf| && buf[i..i + 2] == HalfBytes(w)
    ensures HalfAt(buf, i) == w
  {
  }

  lemma U16Read(buf: seq<Byte>, i: nat, n: nat)
    requires i + 2 <= |buf| && buf[i..i + 2] == U16Bytes(n) && n < 0x1_0000
    ensures U16At(buf, i) == n
  {
    HalfRead(buf, i, ToBits(n, 16));
    HalfAndWordLimits();
    NumberRoundTrip(n, 16);
  }

  lemma U32Read(buf: seq<Byte>, i: nat, n: nat)
    requires i + 4 <= |buf| && buf[i..i + 4] == U32Bytes(n) && n < 0x1_0000_0000
    ensures U32At(buf, i) == n
  {
    var w := ToBits(n, 32);
    assert buf[i..i + 2] == buf[i..i + 4][..2] && buf[i + 2..i + 4] == buf[i..i + 4][2..];
    HalfRead(buf, i, w[..16]);
    HalfRead(buf, i + 2, w[16..]);
    assert w[..16] + w[16..] == w;
    HalfAndWordLimits();
    NumberRoundTrip(n, 32);
  }

  // ---------------------------------------------------------------- datagrams

  function Sealed(body: seq<Byte>): (d: seq<Byte>)
    ensures |d| == |body| + 2
  {
    HalfBytes(Crc(body)) + body
  }

  /** The receiver's test: the leading half-word is the checksum of the rest. */
  predicate Intact(d: seq<Byte>) {
    |d| >= 2 && HalfAt(d, 0) == Crc(d[2..])
  }

  function DataBody(p: Packet): (s: seq<Byte>)
    ensures |s| == |p.payload| + HEADER - 2
  {
    U16Bytes(p.seqNum) + U16Bytes(0) + U16Bytes(p.kind) + U32Bytes(p.id) + p.payload
  }

  function EncodeData(p: Packet): seq<Byte> {
    Sealed(DataBody(p))
  }

  function ParseData(d: seq<Byte>): Option<Packet> {
    if |d| < HEADER || !Intact(d) then None
    else Some(Packet(U16At(d, 2), U16At(d, 6), U32At(d, 8), d[HEADER..]))
  }

  function AckBody(a: Ack): (s: seq<Byte>)
    ensures |s| == 14
  {
    U16Bytes(0) + U16Bytes(a.num) + U16Bytes(a.kind) + U32Bytes(a.sec) + U32Bytes(a.usec)
  }

  function EncodeAck(a: Ack): seq<Byte> {
    Sealed(AckBody(a))
  }

  function ParseAck(d: seq<Byte>): Option<Ack> {
    if |d| < ACK_LEN || !Intact(d) then None
    else Some(Ack(U16At(d, 4), U16At(d, 6), U32At(d, 8), U32At(d, 12)))
  }

  // ---------------------------------------------------------------- receive buffers

  /** The packet in a buffer into which n bytes were received. The test covers these; the
      header fields are read where they belong, even if earlier datagrams left them there. */
  function DataIn(buf: seq<Byte>, n: nat): Option<Packet>
    requires n <= |buf| && HEADER <= |buf|
  {
    if n < 2 || !Intact(buf[..n]) then None
    else Some(Packet(U16At(buf, 2), U16At(buf, 6), U32At(buf, 8), if n < HEADER then [] else buf[HEADER..n]))
  }

  /** The acknowledgement in a buffer into which n bytes were received. */
  function AckIn(buf: seq<Byte>, n: nat): Option<Ack>
    requires n <= |buf| && ACK_LEN <= |buf|
  {
    if n < 2 || !Intact(buf[..n]) then None
    else Some(Ack(U16At(buf, 4), U16At(buf, 6), U32At(buf, 8), U32At(buf, 12)))
  }

  /** A datagram that is long enough is read as such, whatever was in the buffer before. */
  lemma WholeDataIn(buf: seq<Byte>, n: nat)
    requires n <= |buf| && HEADER <= |buf| && (n == 0 || HEADER <= n)
    ensures DataIn(buf, n) == ParseData(buf[..n])
  {
    hide Crc;
  }

  lemma WholeAckIn(buf: seq<Byte>, n: nat)
    requires n <= |buf| && ACK_LEN <= |buf| && (n == 0 || ACK_LEN <= n)
    ensures AckIn(buf, n) == ParseAck(buf[..n])
  {
    hide Crc;
  }

  // ---------------------------------------------------------------- round trips

  predicate PacketFits(p: Packet) {
    p.seqNum < 0x1_0000 && p.kind < 0x1_0000 && p.id < 0x1_0000_0000
  }

  predicate AckFits(a: Ack) {
    a.num < 0x1_0000 && a.kind < 0x1_0000 && a.sec < 0x1_0000_0000 && a.usec < 0x1_0000_0000
  }

  lemma SealedIntact(body: seq<Byte>)
    ensures Intact(Sealed(body))
  {
  }

  /** Where the fields of a data datagram are. */
  lemma DataParts(p: Packet)
    ensures var d := EncodeData(p);
      && |d| == HEADER + |p.payload|
      && d[2..4] == U16Bytes(p.seqNum) && d[4..6] == U16Bytes(0) && d[6..8] == U16Bytes(p.kind)
      && d[8..12] == U32Bytes(p.id) && d[12..] == p.payload
  {
    hide Crc, U16Bytes, U32Bytes, HalfBytes;
    var d, h := EncodeData(p), HalfBytes(Crc(DataBody(p)));
    assert d == h + U16Bytes(p.seqNum) + U16Bytes(0) + U16Bytes(p.kind) + U32Bytes(p.id) + p.payload;
  }

  lemma AckParts(a: Ack)
    ensures var d := EncodeAck(a);
      && |d| == ACK_LEN
      && d[2..4] == U16Bytes(0) && d[4..6] == U16Bytes(a.num) && d[6..8] == U16Bytes(a.kind)
      && d[8..12] == U32Bytes(a.sec) && d[12..16] == U32Bytes(a.usec)
  {
    hide Crc, U16Bytes, U32Bytes, HalfBytes;
    var d, h := EncodeAck(a), HalfBytes(Crc(AckBody(a)));
    assert d == h + U16Bytes(0) + U16Bytes(a.num) + U16Bytes(a.kind) + U32Bytes(a.sec) + U32Bytes(a.usec);
  }

  lemma DataRoundTrip(p: Packet)
    requires PacketFits(p)
    ensures ParseData(EncodeData(p)) == Some(p)
  {
    hide Intact, U16Bytes, U32Bytes, U16At, U32At;
    var d := EncodeData(p);
    SealedIntact(DataBody(p));
    DataParts(p);
    U16Read(d, 2, p.seqNum);
    U16Read(d, 6, p.kind);
    U32Read(d, 8, p.id);
  }

  lemma AckRoundTrip(a: Ack)
    requires AckFits(a)
    ensures ParseAck(EncodeAck(a)) == Some(a)
  {
    hide Intact, U16Bytes, U32Bytes, U16At, U32At;
    var d := EncodeAck(a);
    SealedIntact(AckBody(a));
    AckParts(a);
    U16Read(d, 4, a.num);
    U16Read(d, 6, a.kind);
    U32Read(d, 8, a.sec);
    U32Read(d, 12, a.usec);
  }

  // ---------------------------------------------------------------- corruption

  /** A burst of at most 16 bits in the covered bytes makes both ends drop the datagram. */
  lemma BurstDropped(d: seq<Byte>, d': seq<Byte>, start: nat)
    requires Intact(d) && |d'| == |d| && d'[..2] == d[..2]
    requires BurstError(MessageBits(d[2..]), MessageBits(d'[2..]), start)
    ensures !Intact(d') && ParseData(d') == None && ParseAck(d') == None
  {
    BurstDetected(d[2..], d'[2..], start);
    assert d'[0] == d'[..2][0] && d'[1] == d'[..2][1];
    assert d[0] == d[..2][0] && d[1] == d[..2][1];
  }

  lemma {:induction false} MessageBitsConcat(a: seq<Byte>, b: seq<Byte>)
    ensures MessageBits(a + b) == MessageBits(a) + MessageBits(b)
  {
    if b == [] {
      assert a + b == a;
    } else {
      var n := |b| - 1;
      MessageBitsConcat(a, b[..n]);
      assert (a + b)[..|a| + n] == a + b[..n];
    }
  }

  lemma HeadBits(low: Byte, high: Byte)
    ensures MessageBits([low, high]) == low + high
  {
    assert [low, high][..1] == [low] && [low][..0] == [];
    assert MessageBits([low]) == low;
  }

  lemma {:induction false} IntactIsEven(d: seq<Byte>)
    requires Intact(d)
    ensures Ones(MessageBits(d)) % 2 == 0
  {
    hide Crc, Ones, Mirror;
    var head, body := d[..2], d[2..];
    assert d == head + body;
    MessageBitsConcat(head, body);
    OnesConcat(MessageBits(head), MessageBits(body));
    HeadBits(d[0], d[1]);
    assert head == [d[0], d[1]];
    var low: Bits, high: Bits := d[0], d[1];
    OnesConcat(low, high);
    OnesMirror(d[0]);
    OnesMirror(d[1]);
    OnesConcat(Mirror(d[0]), Mirror(d[1]));
    CrcParity(body);
  }

  /** So does any odd number of flipped bits anywhere in the datagram. */
  lemma {:induction false} OddFlipsDropped(d: seq<Byte>, d': seq<Byte>)
    requires Intact(d) && |d'| == |d|
    requires Ones(Xor(MessageBits(d), MessageBits(d'))) % 2 == 1
    ensures !Intact(d') && ParseData(d') == None && ParseAck(d') == None
  {
    IntactIsEven(d);
    OnesXor(MessageBits(d), MessageBits(d'));
    if Intact(d') {
      IntactIsEven(d');
      assert false;
    }
  }

  // ---------------------------------------------------------------- buffers

  /** The sender's header writes, then the checksum over everything behind it. */
  method BuildData(seqNum: nat, kind: nat, id: nat, payload: seq<Byte>) returns (buf: array<Byte>)
    requires |payload| + HEADER - 2 < 0x1_0000
    ensures fresh(buf) && buf[..] == EncodeData(Packet(seqNum, kind, id, payload))
  {
    hide Crc, MessageBits, IsChecksum, U16Bytes, U32Bytes, HalfBytes, Zeros;
    ghost var p := Packet(seqNum, kind, id, payload);
    var body := U16Bytes(seqNum) + U16Bytes(0) + U16Bytes(kind) + U32Bytes(id) + payload;
    var blank: Byte := Zeros(8);
    var frame: seq<Byte> := [blank, blank] + body;
    buf := new Byte[|frame|](i requires 0 <= i < |frame| => frame[i]);
    assert buf[2..] == body;
    var crc := CalcCrc16(buf, 2, |payload| + HEADER - 2);
    assert buf[2..2 + (|payload| + HEADER - 2)] == body;
    var head := HalfBytes(crc);
    buf[0], buf[1] := head[0], head[1];
    assert buf[..] == head + body;
  }

  /** The receiver's test and header reads. */
  method ReadData(buf: array<Byte>, recvlen: nat) returns (p: Option<Packet>)
    requires 2 <= recvlen <= buf.Length && HEADER <= buf.Length && recvlen < 0x1_0000
    ensures p == DataIn(buf[..], recvlen)
  {
    hide Crc, MessageBits, IsChecksum, U16At, U32At;
    var checkSum := CalcCrc16(buf, 2, recvlen - 2);
    assert buf[2..2 + (recvlen - 2)] == buf[..][..recvlen][2..];
    var b := buf[..];
    if HalfAt(b, 0) != checkSum {
      p := None;
    } else {
      p := Some(Packet(U16At(b, 2), U16At(b, 6), U32At(b, 8), if recvlen < HEADER then [] else b[HEADER..recvlen]));
    }
  }

  /** The receiver's acknowledgement header, then its checksum. */
  method BuildAck(a: Ack) returns (buf: array<Byte>)
    ensures fresh(buf) && buf[..] == EncodeAck(a)
  {
    hide Crc, MessageBits, IsChecksum, U16Bytes, U32Bytes, HalfBytes, Zeros;
    var body := U16Bytes(0) + U16Bytes(a.num) + U16Bytes(a.kind) + U32Bytes(a.sec) + U32Bytes(a.usec);
    var blank: Byte := Zeros(8);
    var frame: seq<Byte> := [blank, blank] + body;
    buf := new Byte[16](i requires 0 <= i < 16 => frame[i]);
    assert buf[2..] == body;
    var crc := CalcCrc16(buf, 2, 14);
    assert buf[2..2 + 14] == body;
    var head := HalfBytes(crc);
    buf[0], buf[1] := head[0], head[1];
    assert buf[..] == head + body;
  }

  /** The sender's test and header reads. */
  method ReadAck(buf: array<Byte>, recvlen: nat) returns (a: Option<Ack>)
    requires 2 <= recvlen <= buf.Length && ACK_LEN <= buf.Length && recvlen < 0x1_0000
    ensures a == AckIn(buf[..], recvlen)
  {
    hide Crc, MessageBits, IsChecksum, U16At, U32At;
    var checkSum := CalcCrc16(buf, 2, recvlen - 2);
    assert buf[2..2 + (recvlen - 2)] == buf[..][..recvlen][2..];
    var b := buf[..];
    if HalfAt(b, 0) != checkSum {
      a := None;
    } else {
      a := Some(Ack(U16At(b, 4), U16At(b, 6), U32At(b, 8), U32At(b, 12)));
    }
  }
}
