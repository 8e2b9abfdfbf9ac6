/** The time stamps of acknowledgements (project2/recvfile.c:236-242,
    project2/sendfile.c:162-167). Clocks are microseconds since the epoch. */
module Stamps {
  import opened Window
  import opened Wire
  import opened Words

  /** The acknowledgement of a receiver whose window starts at laSeq. */
  function MakeAck(laSeq: nat, clock: nat): Ack {
    Ack(Mod(laSeq - 1, SEQ_LEN), 1, U32(clock / 1_000_000), clock % 1_000_000)
  }

  /** What the sender computes from the two clock fields, in 32-bit arithmetic. */
  function Stamp(a: Ack): nat {
    U32(a.usec + 1_000_000 * a.sec)
  }

  function Epoch(clock: nat): nat {
    clock / 0x1_0000_0000
  }

  /** The stamp is the clock modulo 2^32. */
  lemma StampIsClock(laSeq: nat, clock: nat)
    ensures Stamp(MakeAck(laSeq, clock)) == U32(clock)
  {
    var sec, usec := clock / 1_000_000, clock % 1_000_000;
    var q, s := sec / 0x1_0000_0000, U32(sec);
    assert clock == 1_000_000 * sec + usec;
    assert sec == q * 0x1_0000_0000 + s;
    assert clock == (1_000_000 * q) * 0x1_0000_0000 + (usec + 1_000_000 * s);
    WholeCycles(1_000_000 * q, usec + 1_000_000 * s);
  }

  lemma WholeCycles(q: nat, n: nat)
    ensures U32(q * 0x1_0000_0000 + n) == U32(n)
  {
  }

  /** Of two clocks less than 2^32 apart, the later has the larger stamp exactly if
      both lie in the same epoch; across a wrap of the stamp the order is reversed. */
  lemma StampOrder(c: nat, d: nat)
    requires c < d < c + 0x1_0000_0000
    ensures U32(c) < U32(d) <==> Epoch(c) == Epoch(d)
    ensures U32(d) < U32(c) <==> Epoch(c) != Epoch(d)
  {
  }

  lemma SameEpoch(c: nat, d: nat)
    requires Epoch(c) == Epoch(d)
    ensures U32(c) < U32(d) <==> c < d
  {
  }

  lemma AckSurvives(laSeq: nat, clock: nat)
    ensures ParseAck(EncodeAck(MakeAck(laSeq, clock))) == Some(MakeAck(laSeq, clock))
    ensures MakeAck(laSeq, clock).kind == 1
  {
    AckRoundTrip(MakeAck(laSeq, clock));
  }
}
