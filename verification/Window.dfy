/** Modular window arithmetic of the file-transfer protocol (project2/util.h). */
module Window {

  const SEQ_LEN: nat := 16
  const WINDOW_LEN: nat := 8
  const BUFLEN: nat := 32768

  /** Is x inside the circular interval low..high, which wraps when low > high? */
  predicate Between(low: int, high: int, x: int) {
    if low <= high then low <= x <= high else x >= low || x <= high
  }

  /** Distance of ind from the window base low, going upwards round the circle. */
  function MapToWindow(low: int, ind: int): int {
    if ind < low then ind + (SEQ_LEN - low) else ind - low
  }

  /** The C remainder: it has the sign of the dividend. */
  function TruncRem(a: int, b: int): int
    requires b > 0
  {
    if a >= 0 then a % b else -((-a) % b)
  }

  /** `mod` of util.h: the C remainder, moved into 0..b-1. */
  function Mod(a: int, b: int): (r: int)
    requires b > 0
    ensures 0 <= r < b && exists q: int :: a == q * b + r
  {
    var r := TruncRem(a, b);
    assert a >= 0 ==> a == (a / b) * b + r;
    assert a < 0 ==> -a == ((-a) / b) * b - r;
    assert a < 0 ==> a == (-((-a) / b)) * b + r;
    assert a < 0 && r < 0 ==> a == (-((-a) / b) - 1) * b + (r + b);
    if r < 0 then r + b else r
  }

  /** i modulo SEQ_LEN: the sequence number of the packet with unbounded index i. */
  function SeqNum(i: nat): (s: nat)
    ensures s < SEQ_LEN
  {
    i % 16
  }

  /** Acknowledgement number of a receiver that has written the first i packets. */
  function AckNum(i: nat): (a: nat)
    ensures a < SEQ_LEN
  {
    Mod(SeqNum(i) - 1, SEQ_LEN)
  }

  /** How far sequence number k lies above number low, going round the circle of 16. */
  function Above(low: nat, k: nat): nat
    requires low < 16
  {
    (k + 16 - low) % 16
  }

  /** The source computes it with a case distinction, and with a test of two cases whether
      it is less than 8. */
  lemma AboveExactly(low: nat, k: nat)
    requires low < 16 && k < 16
    ensures MapToWindow(low, k) == Above(low, k)
    ensures Between(low, SeqNum(low + WINDOW_LEN - 1), k) <==> Above(low, k) < 8
  {
  }

  lemma SeqNumAdd(b: nat, d: nat)
    ensures SeqNum(SeqNum(b) + d) == SeqNum(b + d)
    ensures SeqNum(b + d) <= SeqNum(b) + d
  {
  }

  /** Within one cycle of the base, residues identify indices: the window test and
      the window offset, computed on residues, are those of the unbounded indices. */
  lemma WindowExact(b: nat, i: nat)
    requires b <= i < b + SEQ_LEN
    ensures Between(SeqNum(b), SeqNum(SeqNum(b) + WINDOW_LEN - 1), SeqNum(i)) <==> i < b + WINDOW_LEN
    ensures MapToWindow(SeqNum(b), SeqNum(i)) == i - b
  {
    var q := b / SEQ_LEN;
    assert b == q * SEQ_LEN + SeqNum(b);
    if SeqNum(b) + (i - b) < SEQ_LEN {
      assert SeqNum(i) == SeqNum(b) + (i - b);
    } else {
      assert i == (q + 1) * SEQ_LEN + (SeqNum(b) + (i - b) - SEQ_LEN);
      assert SeqNum(i) == SeqNum(b) + (i - b) - SEQ_LEN;
    }
  }

  /** The window test accepts the sequence numbers with an offset below the window length. */
  lemma InsideWindow(low: nat, k: nat)
    requires low < SEQ_LEN && k < SEQ_LEN
    ensures Between(low, SeqNum(low + WINDOW_LEN - 1), k) <==> MapToWindow(low, k) < WINDOW_LEN
  {
  }

  /** Acknowledging position i names the sequence number just before it. */
  lemma AckNumIsPrevious(i: nat)
    ensures AckNum(i) == SeqNum(i + SEQ_LEN - 1)
    ensures i > 0 ==> AckNum(i) == SeqNum(i - 1)
    ensures SeqNum(AckNum(i) + 1) == SeqNum(i)
  {
    var q, s := i / 16, SeqNum(i);
    assert i == 16 * q + s;
    if s == 0 {
      assert i + SEQ_LEN - 1 == 16 * q + 15;
    } else {
      assert i + SEQ_LEN - 1 == 16 * (q + 1) + (s - 1) && i - 1 == 16 * q + (s - 1);
    }
  }

  /** An acknowledgement of position i >= b falls in the sender's window exactly when
      it acknowledges something new, and then its offset is that of packet i - 1. */
  lemma AckExact(b: nat, i: nat)
    requires b <= i <= b + WINDOW_LEN
    ensures Between(SeqNum(b), SeqNum(SeqNum(b) + WINDOW_LEN - 1), AckNum(i)) <==> i > b
    ensures i > b ==> MapToWindow(SeqNum(b), AckNum(i)) == i - 1 - b
  {
    AckNumIsPrevious(i);
    if i > b {
      WindowExact(b, i - 1);
    } else {
      WindowExact(b, b + SEQ_LEN - 1);
    }
  }

  /** The window slots below an accepted acknowledgement are those up to its offset. */
  lemma BelowAck(low: nat, ack: nat, k: nat)
    requires low < SEQ_LEN && ack < SEQ_LEN && k < SEQ_LEN
    ensures Between(low, ack, k) <==> MapToWindow(low, k) <= MapToWindow(low, ack)
  {
  }

  /** Moving the base behind sequence number num renumbers the window offsets. */
  lemma BaseShift(low: nat, num: nat, k: nat)
    requires low < SEQ_LEN && num < SEQ_LEN && k < SEQ_LEN
    ensures MapToWindow(low, k) > MapToWindow(low, num) ==>
              MapToWindow(SeqNum(num + 1), k) == MapToWindow(low, k) - MapToWindow(low, num) - 1
    ensures MapToWindow(low, k) <= MapToWindow(low, num) ==>
              MapToWindow(SeqNum(num + 1), k) == MapToWindow(low, k) - MapToWindow(low, num) - 1 + SEQ_LEN
  {
  }

  lemma BaseMoves(low: nat, num: nat)
    requires low < SEQ_LEN && num < SEQ_LEN && MapToWindow(low, num) < WINDOW_LEN
    ensures forall k :: 0 <= k < SEQ_LEN && MapToWindow(low, k) > MapToWindow(low, num) ==>
              MapToWindow(SeqNum(num + 1), k) == MapToWindow(low, k) - MapToWindow(low, num) - 1
    ensures forall k :: 0 <= k < SEQ_LEN && MapToWindow(low, k) <= MapToWindow(low, num) ==>
              MapToWindow(SeqNum(num + 1), k) >= WINDOW_LEN
  {
  }

  /** Unwrapped slot i of a window is exactly the sequence number i mod 16. */
  lemma SlotOffset(laSeq: nat, i: nat)
    requires laSeq < SEQ_LEN && laSeq <= i < laSeq + SEQ_LEN
    ensures MapToWindow(laSeq, SeqNum(i)) == i - laSeq
    ensures forall m :: 0 <= m < SEQ_LEN && m != SeqNum(i) ==> MapToWindow(laSeq, m) != i - laSeq
  {
  }
}
