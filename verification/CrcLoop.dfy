/** The loops of project2/crc16.h. */
module CrcLoop {
  import opened Bits
  import opened Crc16
  import opened CrcAlgebra
  import opened Polynomials

  method CalcCrc16(data: array<Byte>, offset: nat, size: nat) returns (crc: Half)
    requires offset + size <= data.Length && size < 0x1_0000
    ensures crc == Crc(data[offset..offset + size])
    ensures IsChecksum(MessageBits(data[offset..offset + size]), crc)
  {
    var out := FeedMessage(data, offset, size);
    out := Augment(out, MessageBits(data[offset..offset + size]));
    crc := ReverseBits(out);
    CrcIsRemainder(data[offset..offset + size], crc);
  }

  method FeedMessage(data: array<Byte>, offset: nat, size: nat) returns (out: Half)
    requires offset + size <= data.Length && size < 0x1_0000
    ensures out == ClockAll(Zeros(16), MessageBits(data[offset..offset + size]))
  {
    out := Zeros(16);
    var bitsRead: nat, p: nat, left: nat := 0, offset, size;
    ghost var msg := data[offset..offset + size];
    ghost var bits := MessageBits(msg);
    ghost var n := 0;
    assert bits[..n] == [];
    while left > 0
      invariant offset <= p && p + left == offset + size
      invariant 0 <= bitsRead <= 7 && (left == 0 ==> bitsRead == 0)
      invariant n == 8 * (p - offset) + bitsRead && n <= |bits|
      invariant out == ClockAll(Zeros(16), bits[..n])
      decreases left, 8 - bitsRead
    {
      MessageBit(msg, p - offset, bitsRead);
      ClockNext(bits, n);
      n := n + 1;
      var bitFlag := out[0];
      out := ShiftLeft(out);
      out := out[15 := data[p][bitsRead]];
      bitsRead := bitsRead + 1;
      if bitsRead > 7 {
        bitsRead := 0;
        p := p + 1;
        left := left - 1;
      }
      if bitFlag {
        out := Xor(out, POLYNOMIAL);
      }
    }
    assert bits[..n] == bits;
  }

  /** Sixteen zero bits follow the message. */
  method Augment(register: Half, ghost bits: Bits) returns (out: Half)
    requires register == ClockAll(Zeros(16), bits)
    ensures out == Residue(bits)
  {
    out := register;
    ghost var padded := bits + Zeros(16);
    assert padded[..|bits|] == bits;
    for i := 0 to 16
      invariant out == ClockAll(Zeros(16), padded[..|bits| + i])
    {
      ClockNext(padded, |bits| + i);
      var bitFlag := out[0];
      out := ShiftLeft(out);
      if bitFlag {
        out := Xor(out, POLYNOMIAL);
      }
    }
    assert padded[..|bits| + 16] == padded;
  }

  /** The mask i of the source is bit k from the top, its mask j bit k from the bottom. */
  method ReverseBits(out: Half) returns (crc: Half)
    ensures crc == Mirror(out)
  {
    crc := Zeros(16);
    for k := 0 to 16
      invariant forall m :: 0 <= m < 16 ==> crc[m] == (m > 15 - k && out[15 - m])
    {
      if out[k] {
        crc := crc[15 - k := true];
      }
    }
  }
}
