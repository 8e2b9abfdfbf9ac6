/** The receiver's residues mod 16 stand for unbounded packet indices: it has written
    exactly the first lastId packets and holds only packets of its window. */
module ReceiverIndices {
  import opened Bits
  import opened Window
  import opened Wire
  import opened Segments
  import opened RecvFile

  /** Is the packet with index j, of the current window, stored? */
  predicate Holds(r: Receiver, j: nat)
    requires Shaped(r)
  {
    r.lastId <= j < r.lastId + WINDOW_LEN && r.received[SeqNum(j)]
  }

  /** Every stored packet of the window was sent, and its node holds its payload. */
  ghost predicate HoldsSent(file: seq<Byte>, n: nat, r: Receiver)
    requires Shaped(r)
  {
    forall j: nat :: Holds(r, j) ==> j < n && r.cells[j - r.lastId] == Filled(Payload(file, j))
  }

  /** The first lastId of the n packets sent so far are written; a set flag belongs to
      a packet of the window that was sent, and its node holds that packet's payload. */
  ghost predicate Reassembling(file: seq<Byte>, n: nat, r: OrderedReceiver) {
    && r.lastId <= n <= r.lastId + WINDOW_LEN && n <= Total(file) < 0x1_0000_0000
    && r.laSeq == SeqNum(r.lastId)
    && r.written == Prefix(file, r.lastId)
    && HoldsSent(file, n, r)
    && LastSeen(file, n, r)
  }

  /** The exit state: the last packet was seen if it is stored or written; the loop is
      left only with the whole file. */
  ghost predicate LastSeen(file: seq<Byte>, n: nat, r: OrderedReceiver)
    requires r.lastId <= n <= Total(file)
  {
    && r.readyExit <= 2
    && (r.readyExit != 0 ==> n == Total(file) && r.lastWindow == SeqNum(Total(file) - 1))
    && (r.lastId == Total(file) ==> r.readyExit != 0)
    && (Holds(r, Total(file) - 1) ==> r.readyExit != 0)
    && (r.readyExit == 2 ==> r.lastId == Total(file))
  }

  /** The sender may read on as long as its window is not ahead by more than 8. */
  lemma MoreSent(file: seq<Byte>, n: nat, m: nat, r: OrderedReceiver)
    requires Reassembling(file, n, r) && n <= m <= r.lastId + WINDOW_LEN && m <= Total(file)
    ensures Reassembling(file, m, r)
  {
  }

  /** A packet that passes the id test lies in the receive window, so the window test
      rejects nothing; what is ignored is a duplicate of a stored packet. */
  lemma FreshIsInWindow(file: seq<Byte>, n: nat, r: OrderedReceiver, j: nat)
    requires Reassembling(file, n, r) && j < n
    ensures PacketOf(file, j).id > r.lastId <==> r.lastId <= j < r.lastId + WINDOW_LEN
    ensures r.lastId <= j ==>
              && Between(r.laSeq, SeqNum(r.laSeq + WINDOW_LEN - 1), SeqNum(j))
              && MapToWindow(r.laSeq, SeqNum(j)) == j - r.lastId
              && (Accepted(r, SeqNum(j)) <==> !Holds(r, j))
  {
    hide Payload, Prefix;
    if r.lastId <= j {
      WindowExact(r.lastId, j);
    }
  }

  lemma NoteKeeps(file: seq<Byte>, n: nat, r: OrderedReceiver, j: nat)
    requires Reassembling(file, n, r) && r.lastId <= j < n
    ensures Reassembling(file, n, Note(r, PacketOf(file, j)))
    ensures j == Total(file) - 1 ==> Note(r, PacketOf(file, j)).readyExit != 0
  {
    OnlyLastIsShort(file, j);
    hide Payload, Prefix;
    var q := Note(r, PacketOf(file, j));
    assert forall i: nat :: Holds(q, i) == Holds(r, i);
  }

  // ---------------------------------------------------------------- one arrival

  /** After the packet is stored and before anything is written. */
  ghost predicate Loaded(file: seq<Byte>, n: nat, r: Receiver) {
    && Stocked(r) && r.lastId < n <= r.lastId + WINDOW_LEN && n <= Total(file) < 0x1_0000_0000
    && r.laSeq == SeqNum(r.lastId)
    && r.written == Prefix(file, r.lastId)
    && HoldsSent(file, n, r)
    && r.readyExit <= 1
    && (r.readyExit != 0 ==> n == Total(file) && r.lastWindow == SeqNum(Total(file) - 1))
    && (Holds(r, Total(file) - 1) ==> r.readyExit != 0)
  }

  lemma StoreHolds(file: seq<Byte>, r: OrderedReceiver, j: nat, i: nat)
    requires r.laSeq == SeqNum(r.lastId) && MapToWindow(r.laSeq, SeqNum(j)) == j - r.lastId < WINDOW_LEN
    requires Holds(Store(r, PacketOf(file, j)), i)
    ensures i == j || Holds(r, i)
    ensures i != j ==> Store(r, PacketOf(file, j)).cells[i - r.lastId] == r.cells[i - r.lastId]
  {
    WindowExact(r.lastId, i);
    hide Payload, Stocked, SeqNum;
  }

  lemma StoreLoads(file: seq<Byte>, n: nat, r: OrderedReceiver, j: nat)
    requires Reassembling(file, n, r) && r.lastId <= j < n
    requires j == Total(file) - 1 ==> r.readyExit != 0
    requires MapToWindow(r.laSeq, SeqNum(j)) == j - r.lastId
    ensures Loaded(file, n, Store(r, PacketOf(file, j)))
  {
    hide Payload, Prefix, Backed, SeqNum, Total, MapToWindow;
    var u := Store(r, PacketOf(file, j));
    forall i: nat | Holds(u, i)
      ensures i < n && u.cells[i - u.lastId] == Filled(Payload(file, i))
      ensures i == j || Holds(r, i)
    {
      StoreHolds(file, r, j, i);
    }
  }

  /** The released nodes hold the next payloads of the file. */
  lemma {:induction false} BytesArePayloads(file: seq<Byte>, i: nat, cells: seq<Cell>)
    requires forall k :: 0 <= k < |cells| ==> cells[k] == Filled(Payload(file, i + k))
    ensures Prefix(file, i) + Bytes(cells) == Prefix(file, i + |cells|)
  {
    hide Payload, Prefix;
    if cells != [] {
      var n := |cells| - 1;
      BytesArePayloads(file, i, cells[..n]);
      PrefixNext(file, i + n);
      assert Bytes(cells) == Bytes(cells[..n]) + Payload(file, i + n);
      assert Prefix(file, i) + (Bytes(cells[..n]) + Payload(file, i + n))
          == (Prefix(file, i) + Bytes(cells[..n])) + Payload(file, i + n);
    } else {
      assert Prefix(file, i) + [] == Prefix(file, i);
    }
  }

  /** The released run consists of stored packets, starting at the base. */
  lemma RunHolds(r: Receiver, k: nat)
    requires Shaped(r) && r.laSeq == SeqNum(r.lastId)
    requires k < Run(r.received, r.laSeq, r.laSeq + WINDOW_LEN)
    ensures Holds(r, r.lastId + k)
  {
    assert r.received[SeqNum(r.laSeq + k)];
    SeqNumAdd(r.lastId, k);
    hide SeqNum;
  }

  /** Each released node holds the payload of its index. */
  lemma RunPayload(file: seq<Byte>, n: nat, r: Receiver, k: nat)
    requires Loaded(file, n, r) && k < Run(r.received, r.laSeq, r.laSeq + WINDOW_LEN)
    ensures Holds(r, r.lastId + k) && r.lastId + k < n
    ensures r.cells[k] == Filled(Payload(file, r.lastId + k))
  {
    hide Payload, Prefix, SeqNum, Total, Backed, Run;
    RunHolds(r, k);
  }

  /** The exit test compares unwrapped positions with a wrapped sequence number; when
      it holds, the written packets end with the last one. */
  lemma ExitTest(total: nat, id: nat, m: nat)
    requires id < total <= id + WINDOW_LEN && id + m <= total
    ensures SeqNum(total - 1) == SeqNum(id) + m - 1 ==> id + m == total
    ensures id + m == total ==> (SeqNum(total - 1) == SeqNum(id) + m - 1 <==> SeqNum(id) <= SeqNum(total - 1))
  {
  }

  /** Are the first m nodes the packets that follow the written ones? */
  ghost predicate Releasable(file: seq<Byte>, n: nat, r: Receiver, m: nat)
    requires Shaped(r)
  {
    && r.lastId + m <= n && (m > 0 ==> Holds(r, r.lastId + m - 1)) && m <= WINDOW_LEN
    && forall k :: 0 <= k < m ==> r.cells[k] == Filled(Payload(file, r.lastId + k))
  }

  /** The arrival of index j releases nothing, or a run of stored packets from the base. */
  lemma ReleasedAt(file: seq<Byte>, n: nat, r: Receiver, j: nat)
    requires Loaded(file, n, r) && r.lastId <= j < n
    ensures Releasable(file, n, r, Released(r, SeqNum(j)))
  {
    hide Payload, Prefix, SeqNum, Total, Backed, Run, HoldsSent, Holds;
    var m := Released(r, SeqNum(j));
    forall k | 0 <= k < m
      ensures Holds(r, r.lastId + k) && r.lastId + k < n
      ensures r.cells[k] == Filled(Payload(file, r.lastId + k))
    {
      RunPayload(file, n, r, k);
    }
    if m > 0 {
      RunPayload(file, n, r, m - 1);
    }
  }

  /** After writing m packets and sliding, the same invariant holds m further on. */
  lemma SlideHolds(file: seq<Byte>, n: nat, r: Receiver, m: nat)
    requires Loaded(file, n, r) && Writable(r, m) && r.lastId + m <= n
    requires !r.received[SeqNum(r.laSeq + m)]
    ensures var q := Slide(WriteOut(r, m), m);
      Ordered(q) && q.lastId == r.lastId + m && q.laSeq == SeqNum(r.lastId + m) && HoldsSent(file, n, q)
    ensures Holds(Slide(WriteOut(r, m), m), Total(file) - 1) ==> Holds(r, Total(file) - 1)
  {
    SlideKeepsOrder(r, m);
    SeqNumAdd(r.lastId, m);
    var q := Slide(WriteOut(r, m), m);
    hide Payload, Prefix, SeqNum, Total, Bytes, Run, Backed, Holds;
    forall j: nat | Holds(q, j)
      ensures Holds(r, j) && q.lastId <= j && j - r.lastId < WINDOW_LEN
      ensures q.cells[j - q.lastId] == r.cells[j - r.lastId]
    {
      HeldBefore(file, n, r, m, j);
    }
  }

  /** What is held after the slide was held before, in the node m places further on. */
  lemma HeldBefore(file: seq<Byte>, n: nat, r: Receiver, m: nat, j: nat)
    requires Loaded(file, n, r) && Writable(r, m) && r.lastId + m <= n
    requires Holds(Slide(WriteOut(r, m), m), j)
    ensures var q := Slide(WriteOut(r, m), m);
      && Holds(r, j) && q.lastId == r.lastId + m <= j && j - r.lastId < WINDOW_LEN
      && q.cells[j - q.lastId] == r.cells[j - r.lastId]
  {
    hide Payload, Prefix, Total, Bytes, Run, HoldsSent;
    WindowExact(r.lastId, j);
    assert r.received[SeqNum(j)];
    assert Backed(r, SeqNum(j));
  }

  /** The written part of the file grows by exactly the released payloads. */
  lemma WriteExtendsPrefix(file: seq<Byte>, n: nat, r: Receiver, m: nat)
    requires Loaded(file, n, r) && Releasable(file, n, r, m)
    ensures Writable(r, m) && Slide(WriteOut(r, m), m).written == Prefix(file, r.lastId + m)
  {
    hide Payload, Prefix, SeqNum, Total, HoldsSent;
    BytesArePayloads(file, r.lastId, r.cells[..m]);
  }

  lemma SlideExit(file: seq<Byte>, n: nat, r: Receiver, m: nat)
    requires Loaded(file, n, r) && Writable(r, m) && Releasable(file, n, r, m)
    ensures var q := Slide(WriteOut(r, m), m);
      && q.lastId == r.lastId + m && q.readyExit <= 2
      && (q.readyExit != 0 ==> n == Total(file) && q.lastWindow == SeqNum(Total(file) - 1))
      && (q.readyExit == 2 ==> q.lastId == Total(file))
      && (r.readyExit != 0 ==> q.readyExit != 0)
      && (q.lastId == Total(file) ==>
            q.readyExit != 0 && (q.readyExit == 2 <==> SeqNum(r.lastId) <= SeqNum(Total(file) - 1)))
  {
    if n == Total(file) {
      ExitTest(n, r.lastId, m);
    }
    hide Payload, Prefix, SeqNum, Total, HoldsSent, Bytes, Unflagged, Unsets;
  }

  /** All of the above together, for the receiver after the slide. */
  lemma SlideReassembles(file: seq<Byte>, n: nat, r: Receiver, m: nat)
    requires Loaded(file, n, r) && Releasable(file, n, r, m) && !r.received[SeqNum(r.laSeq + m)]
    ensures Writable(r, m) && Ordered(Slide(WriteOut(r, m), m))
    ensures Reassembling(file, n, Slide(WriteOut(r, m), m))
    ensures r.lastId + m == Total(file) ==>
              (Slide(WriteOut(r, m), m).readyExit == 2 <==> SeqNum(r.lastId) <= SeqNum(Total(file) - 1))
  {
    hide Payload, Prefix, SeqNum, Total, HoldsSent, Holds, Stocked, WriteOut, Slide;
    WriteExtendsPrefix(file, n, r, m);
    SlideHolds(file, n, r, m);
    SlideExit(file, n, r, m);
    hide Ordered, Writable, Releasable;
  }

  lemma SettleKeeps(file: seq<Byte>, n: nat, r: Receiver, j: nat)
    requires Loaded(file, n, r) && r.lastId <= j < n && (SeqNum(j) == r.laSeq || !r.received[r.laSeq])
    ensures Reassembling(file, n, Settle(r, SeqNum(j)))
    ensures Settle(r, SeqNum(j)).lastId == r.lastId + Released(r, SeqNum(j))
    ensures Settle(r, SeqNum(j)).lastId == Total(file) ==>
              (Settle(r, SeqNum(j)).readyExit == 2 <==> SeqNum(r.lastId) <= SeqNum(Total(file) - 1))
  {
    hide Payload, Prefix, SeqNum, Total, HoldsSent, Holds, Run, Released, Releasable;
    ReleasedAt(file, n, r, j);
    ReleaseKeepsOrder(r, SeqNum(j));
    SlideReassembles(file, n, r, Released(r, SeqNum(j)));
    SlideId(file, n, r, Released(r, SeqNum(j)));
    hide Loaded, Reassembling, WriteOut, Slide, Stocked, Ordered;
  }

  lemma SlideId(file: seq<Byte>, n: nat, r: Receiver, m: nat)
    requires Loaded(file, n, r) && Releasable(file, n, r, m) && Writable(r, m)
    ensures Slide(WriteOut(r, m), m).lastId == r.lastId + m
  {
  }

  // ---------------------------------------------------------------- the whole step

  /** Any packet of the file that was sent keeps the invariant, and the receiver only
      moves forward. */
  lemma ReceiveKeeps(file: seq<Byte>, n: nat, r: OrderedReceiver, j: nat)
    requires Reassembling(file, n, r) && j < n && r.readyExit != 2
    ensures Reassembling(file, n, Receive(r, PacketOf(file, j)))
    ensures Receive(r, PacketOf(file, j)).lastId >= r.lastId
  {
    var p := PacketOf(file, j);
    FreshIsInWindow(file, n, r, j);
    if r.lastId <= j && !Holds(r, j) {
      NoteKeeps(file, n, r, j);
      var t := Note(r, p);
      StoreLoads(file, n, t, j);
      SettleKeeps(file, n, Store(t, p), j);
    } else if r.lastId <= j {
      NoteKeeps(file, n, r, j);
    }
  }

  /** What is not newer than the written packets, the file name with id 0 included,
      has no effect. */
  lemma OldIsRejected(r: OrderedReceiver, p: Packet)
    requires p.id <= r.lastId
    ensures Receive(r, p) == r
  {
  }

  /** The missing packet at the base always moves the receiver forward. */
  lemma HeadAdvances(file: seq<Byte>, n: nat, r: OrderedReceiver)
    requires Reassembling(file, n, r) && r.lastId < n && r.readyExit != 2
    ensures Receive(r, PacketOf(file, r.lastId)).lastId > r.lastId
  {
    var j, p := r.lastId, PacketOf(file, r.lastId);
    FreshIsInWindow(file, n, r, j);
    NoteKeeps(file, n, r, j);
    var t := Note(r, p);
    StoreLoads(file, n, t, j);
    var u := Store(t, p);
    SettleKeeps(file, n, u, j);
    HeadIsReleased(u);
    hide Settle, Store, Payload, Reassembling, Run;
  }

  lemma HeadIsReleased(r: Receiver)
    requires Shaped(r) && r.received[r.laSeq]
    ensures Released(r, r.laSeq) > 0
  {
  }

  // ---------------------------------------------------------------- leaving the loop

  /** When the last packet gets written, the receiver leaves its loop exactly if the
      batch it is written in does not cross the wrap of the sequence numbers. */
  lemma ExitExactly(file: seq<Byte>, n: nat, r: OrderedReceiver, j: nat)
    requires Reassembling(file, n, r) && j < n && r.readyExit != 2
    requires r.lastId < Total(file) == Receive(r, PacketOf(file, j)).lastId
    ensures Receive(r, PacketOf(file, j)).readyExit == 2 <==> SeqNum(r.lastId) <= SeqNum(Total(file) - 1)
  {
    var p := PacketOf(file, j);
    FreshIsInWindow(file, n, r, j);
    if r.lastId <= j {
      NoteKeeps(file, n, r, j);
      if !Holds(r, j) {
        var t := Note(r, p);
        StoreLoads(file, n, t, j);
        SettleKeeps(file, n, Store(t, p), j);
      }
    }
  }

  /** A missed exit is final: nothing the sender ever sent changes the receiver again. */
  lemma MissedExitIsFinal(file: seq<Byte>, n: nat, r: OrderedReceiver, j: nat)
    requires Reassembling(file, n, r) && r.lastId == Total(file) && j < n
    ensures Receive(r, PacketOf(file, j)) == r
  {
  }
}
