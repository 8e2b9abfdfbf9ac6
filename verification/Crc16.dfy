/** The bit-serial checksum of project2/crc16.h. */
module Crc16 {
  import opened Bits

  /** CRC16 = 0x8005: the generator x^16 + x^15 + x^2 + 1 below its leading term. */
  const POLYNOMIAL: Half :=
    [true, false, false, false, false, false, false, false,
     false, false, false, false, false, true, false, true]

  /** One clock of the shift register: a bit enters, and if a one leaves, the
      register is reduced. */
  function Clock(reg: Half, bit: bool): Half {
    if reg[0] then Xor(reg[1..] + [bit], POLYNOMIAL) else reg[1..] + [bit]
  }

  function ClockAll(reg: Half, bits: Bits): Half {
    if bits == [] then reg else Clock(ClockAll(reg, bits[..|bits| - 1]), bits[|bits| - 1])
  }

  /** The bits of a message in the order they enter the register. */
  function MessageBits(data: seq<Byte>): (s: Bits)
    ensures |s| == 8 * |data|
  {
    if data == [] then [] else MessageBits(data[..|data| - 1]) + data[|data| - 1]
  }

  /** The register after a message and its 16-bit augmentation. */
  function Residue(bits: Bits): Half {
    ClockAll(Zeros(16), bits + Zeros(16))
  }

  function Crc(data: seq<Byte>): Half {
    Mirror(Residue(MessageBits(data)))
  }

  lemma ClockAppend(reg: Half, bits: Bits, bit: bool)
    ensures ClockAll(reg, bits + [bit]) == Clock(ClockAll(reg, bits), bit)
  {
  }

  lemma ClockNext(bits: Bits, n: nat)
    requires n < |bits|
    ensures ClockAll(Zeros(16), bits[..n + 1]) == Clock(ClockAll(Zeros(16), bits[..n]), bits[n])
  {
    assert bits[..n + 1] == bits[..n] + [bits[n]];
    ClockAppend(Zeros(16), bits[..n], bits[n]);
  }

  /** Bit k of byte n is bit 8n + k of the message. */
  lemma {:induction false} MessageBit(data: seq<Byte>, n: nat, k: nat)
    requires n < |data| && k < 8
    ensures MessageBits(data)[8 * n + k] == data[n][k]
  {
    if n >= |data| - 1 {
    } else {
      MessageBit(data[..|data| - 1], n, k);
    }
  }
}
