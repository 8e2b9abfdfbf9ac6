/** What the receiver does with any packet whatsoever, in plain residues: an account that
    does not use the steps of its program. */
module ReceiverEffects {
  import opened Bits
  import opened RecvFile
  import opened Window
  import opened Wire

  /** Do the packets at the n sequence numbers from k on form a row that was received, and is
      that all of the row inside the window? */
  predicate IsRow(received: seq<bool>, k: nat, n: nat)
    requires |received| == 16
  {
    && 0 < n <= 8 && (forall i: nat :: k < i < k + n ==> received[SeqNum(i)])
    && (n < 8 ==> !received[SeqNum(k + n)])
  }

  /** The payloads of the nodes i .. n-1, front first. */
  function Joined(cells: seq<Cell>, i: nat, n: nat): seq<Byte>
    requires i <= n <= |cells| && forall j :: i <= j < n ==> cells[j].Filled?
    decreases n - i
  {
    if i == n then [] else cells[i].payload + Joined(cells, i + 1, n)
  }

  lemma {:induction false} BytesFrom(cells: seq<Cell>, i: nat, n: nat)
    requires i <= n <= |cells| && forall j :: 0 <= j < n ==> cells[j].Filled?
    ensures Bytes(cells[..n]) == Bytes(cells[..i]) + Joined(cells, i, n)
    decreases n - i
  {
    if i == n {
    } else {
      BytesNext(cells, i);
      BytesFrom(cells, i + 1, n);
    }
  }

  /** A packet with another type or an old id, one outside the window and one that is
      stored already change nothing but the note about the last packet. */
  lemma Rejected(r: OrderedReceiver, p: Packet)
    requires !((p.kind == 2 || p.kind == 4) && p.id > r.lastId)
          || p.seqNum >= 16 || Above(r.laSeq, p.seqNum) >= 8 || r.received[p.seqNum]
    ensures Receive(r, p) == if p.kind == 4 && p.id > r.lastId then r.(readyExit := 1, lastWindow := p.seqNum) else r
  {
    hide Settle;
    if p.seqNum < 16 {
      AboveExactly(r.laSeq, p.seqNum);
    }
  }

  /** A new packet of the window that is not at its base is stored in its place; nothing is
      written and the window stays. */
  lemma Stored(r: OrderedReceiver, p: Packet)
    requires (p.kind == 2 || p.kind == 4) && p.id > r.lastId
    requires p.seqNum < 16 && 0 < Above(r.laSeq, p.seqNum) < 8 && !r.received[p.seqNum]
    ensures var q, k := Receive(r, p), Above(r.laSeq, p.seqNum);
      var seen, last := if p.kind == 4 then 1 else r.readyExit, if p.kind == 4 then p.seqNum else r.lastWindow;
      q == r.(received := r.received[p.seqNum := true], cells := r.cells[k := Filled(p.payload)],
              lastWindow := last, readyExit := if seen != 0 && last == r.laSeq - 1 then 2 else seen)
  {
    AboveExactly(r.laSeq, p.seqNum);
    var t := Note(r, p);
    assert Released(Store(t, p), p.seqNum) == 0;
    WriteNothing(Store(t, p));
    assert SeqNum(r.laSeq) == r.laSeq;
    hide Between, Unflagged, WriteOut;
  }

  /** q is r after packet p at its base released n packets. */
  ghost predicate Delivered(r: OrderedReceiver, p: Packet, n: nat, q: Receiver)
    requires n <= 8 && forall i :: 0 < i < n ==> r.cells[i].Filled?
  {
    var seen, last := if p.kind == 4 then 1 else r.readyExit, if p.kind == 4 then p.seqNum else r.lastWindow;
    && n > 0 && q.written == r.written + p.payload + Joined(r.cells, 1, n)
    && q.lastId == (r.lastId + n) % 0x1_0000_0000 && q.laSeq == (r.laSeq + n) % 16
    && |q.received| == 16 && (forall k: nat :: k < 16 ==> (q.received[k] <==> r.received[k] && Above(r.laSeq, k) >= n))
    && q.cells == r.cells[n..] + seq(n, _ => Unset) && q.lastWindow == last
    && q.readyExit == if seen != 0 && last == r.laSeq + n - 1 then 2 else seen
  }

  /** The packet at the base is written with the row of stored ones behind it: the file grows
      by their payloads in order, the position by their number, the window moves behind
      them, their flags are cleared; and the loop is left if the last of them has the number
      of the last packet, counted without the wrap. */
  lemma AtBase(r: OrderedReceiver, p: Packet) returns (n: nat)
    requires (p.kind == 2 || p.kind == 4) && p.id > r.lastId && p.seqNum == r.laSeq
    ensures IsRow(r.received, r.laSeq, n) && forall i :: 0 < i < n ==> r.cells[i].Filled?
    ensures Delivered(r, p, n, Receive(r, p))
  {
    hide Bytes, Joined, Settle, Released, IsRow, Above, Backed, SeqNum, Run, WriteOut, Slide;
    var s := Store(Note(r, p), p);
    ReceiveSettles(r, p);
    n := Released(s, p.seqNum);
    ReleaseKeepsOrder(s, p.seqNum);
    RowOf(r, s, n);
    SettleExactly(s, n);
    WrittenBytes(r, s, p.payload, n);
    assert s.cells[n..] == r.cells[n..];
    hide Store, Note, Writable;
  }

  lemma ReceiveSettles(r: OrderedReceiver, p: Packet)
    requires (p.kind == 2 || p.kind == 4) && p.id > r.lastId && p.seqNum == r.laSeq
    ensures var s := Store(Note(r, p), p);
      && s.laSeq == r.laSeq && s.received == r.received[r.laSeq := true] && s.cells == r.cells[0 := Filled(p.payload)]
      && s.written == r.written && s.lastId == r.lastId
      && Receive(r, p) == Settle(s, r.laSeq)
  {
    hide Settle;
    AboveExactly(r.laSeq, p.seqNum);
  }

  lemma WrittenBytes(r: Receiver, s: Receiver, payload: seq<Byte>, n: nat)
    requires 0 < n <= |r.cells| && Writable(s, n) && s.cells == r.cells[0 := Filled(payload)]
    ensures forall i :: 0 < i < n ==> r.cells[i].Filled?
    ensures Bytes(s.cells[..n]) == payload + Joined(r.cells, 1, n)
  {
    hide Bytes, Joined;
    forall i | 0 < i < n
      ensures r.cells[i].Filled?
    {
      assert s.cells[i] == r.cells[i];
    }
    BytesFrom(s.cells, 0, n);
    FirstOfRow(r.cells, payload, n);
  }

  lemma RowOf(r: OrderedReceiver, s: Receiver, n: nat)
    requires |s.received| == 16 && s.laSeq == r.laSeq && s.received == r.received[r.laSeq := true]
    requires n == Released(s, s.laSeq)
    ensures IsRow(r.received, r.laSeq, n)
    ensures forall k: nat :: k < 16 && Above(r.laSeq, k) >= n ==> s.received[k] == r.received[k]
  {
    var k := r.laSeq;
    assert SeqNum(k) == k && Above(k, k) == 0;
    forall i: nat | k < i < k + WINDOW_LEN
      ensures s.received[SeqNum(i)] == r.received[SeqNum(i)]
    {
      SlotOffset(k, i);
    }
    hide Above;
  }

  lemma SettleExactly(s: Receiver, n: nat)
    requires Stocked(s) && n == Released(s, s.laSeq) && Writable(s, n)
    ensures var q := Settle(s, s.laSeq);
      && q.written == s.written + Bytes(s.cells[..n]) && q.lastId == (s.lastId + n) % 0x1_0000_0000
      && q.laSeq == (s.laSeq + n) % 16 && q.cells == s.cells[n..] + Unsets(n) && q.lastWindow == s.lastWindow
      && (forall k: nat :: k < 16 ==> (q.received[k] <==> s.received[k] && Above(s.laSeq, k) >= n))
      && q.readyExit == if s.readyExit != 0 && s.lastWindow == s.laSeq + n - 1 then 2 else s.readyExit
  {
    hide Bytes, Released, Above, MapToWindow, Run, Backed;
    forall k: nat | k < 16
      ensures MapToWindow(s.laSeq, k) == Above(s.laSeq, k)
    {
      AboveExactly(s.laSeq, k);
    }
  }

  lemma FirstOfRow(cells: seq<Cell>, payload: seq<Byte>, n: nat)
    requires 0 < n <= |cells| && forall j :: 0 < j < n ==> cells[j].Filled?
    ensures var c := cells[0 := Filled(payload)];
      Joined(c, 0, n) == payload + Joined(cells, 1, n) && Bytes(c[..0]) == []
  {
    JoinedAlike(cells, cells[0 := Filled(payload)], 1, n);
  }

  lemma {:induction false} JoinedAlike(x: seq<Cell>, y: seq<Cell>, i: nat, n: nat)
    requires i <= n <= |x| == |y| && forall j :: i <= j < n ==> x[j].Filled? && x[j] == y[j]
    ensures Joined(x, i, n) == Joined(y, i, n)
    decreases n - i
  {
    if i == n {
    } else {
      JoinedAlike(x, y, i + 1, n);
    }
  }
}
