/** How a file is cut into packets (project2/sendfile.c:210-230). */
module Segments {
  import opened Bits
  import opened Window
  import opened Wire

  function Min(a: nat, b: nat): nat {
    if a <= b then a else b
  }

  /** fread of at most n bytes at a position. */
  function Read(file: seq<Byte>, pos: nat, n: nat): (s: seq<Byte>)
    ensures |s| <= n
  {
    file[Min(pos, |file|)..Min(pos + n, |file|)]
  }

  /** Number of packets of a file: the last one is always short, possibly empty. */
  function Total(file: seq<Byte>): (n: nat)
    ensures n > 0
  {
    |file| / BUFLEN + 1
  }

  function Payload(file: seq<Byte>, i: nat): seq<Byte> {
    Read(file, i * BUFLEN, BUFLEN)
  }

  function Kind(payload: seq<Byte>): nat {
    if |payload| < BUFLEN then 4 else 2
  }

  /** Packet number i of a file, counted from 0; its id is i + 1. */
  function PacketOf(file: seq<Byte>, i: nat): Packet {
    Packet(SeqNum(i), Kind(Payload(file, i)), i + 1, Payload(file, i))
  }

  /** The part of the file that the first n packets carry. */
  function Prefix(file: seq<Byte>, n: nat): seq<Byte> {
    file[..Min(n * BUFLEN, |file|)]
  }

  /** The payloads of packets i .. i+n-1. */
  function Payloads(file: seq<Byte>, i: nat, n: nat): seq<Byte>
    decreases n
  {
    if n == 0 then [] else Payload(file, i) + Payloads(file, i + 1, n - 1)
  }

  lemma TotalBounds(file: seq<Byte>)
    ensures (Total(file) - 1) * BUFLEN <= |file| < Total(file) * BUFLEN
  {
  }

  /** Exactly the last packet is short, so exactly it has type 4. */
  lemma OnlyLastIsShort(file: seq<Byte>, i: nat)
    requires i < Total(file)
    ensures Kind(Payload(file, i)) == 4 <==> i == Total(file) - 1
    ensures |Payload(file, Total(file) - 1)| == |file| % BUFLEN
  {
  }

  lemma PrefixNext(file: seq<Byte>, i: nat)
    ensures Prefix(file, i) + Payload(file, i) == Prefix(file, i + 1)
  {
  }

  lemma {:induction false} PayloadsExtendPrefix(file: seq<Byte>, i: nat, n: nat)
    ensures Prefix(file, i) + Payloads(file, i, n) == Prefix(file, i + n)
    decreases n
  {
    hide Payload, Prefix;
    if n > 0 {
      PayloadsExtendPrefix(file, i + 1, n - 1);
      PrefixNext(file, i);
      assert Prefix(file, i) + (Payload(file, i) + Payloads(file, i + 1, n - 1))
          == (Prefix(file, i) + Payload(file, i)) + Payloads(file, i + 1, n - 1);
    } else {
      assert Prefix(file, i) + [] == Prefix(file, i);
    }
  }

  /** All payloads together are the file. */
  lemma PayloadsAreFile(file: seq<Byte>)
    ensures Payloads(file, 0, Total(file)) == file
    ensures Prefix(file, Total(file)) == file
  {
    PayloadsExtendPrefix(file, 0, Total(file));
    TotalBounds(file);
    assert Prefix(file, 0) == [];
  }

  /** Reading on from the end of packet i - 1 yields packet i. */
  lemma ReadContinues(file: seq<Byte>, i: nat)
    requires i < Total(file)
    ensures Read(file, Min(i * BUFLEN, |file|), BUFLEN) == Payload(file, i)
    ensures Min(i * BUFLEN, |file|) + |Payload(file, i)| == Min((i + 1) * BUFLEN, |file|)
  {
  }
}
