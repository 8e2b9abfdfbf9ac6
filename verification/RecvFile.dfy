/** The receiver of project2/recvfile.c: placement, in-order delivery, exit test. */
module RecvFile {
  import opened Bits
  import opened Window
  import opened Wire
  import opened FixQueue
  import opened Stamps
  import opened Words

  /** The contents of a reassembly node; a freshly allocated node is unset. */
  datatype Cell = Unset | Filled(payload: seq<Byte>)

  /** readyExit: 0 no last packet seen, 1 seen, 2 leave the loop. */
  datatype Receiver = Receiver(laSeq: nat, lastId: nat, received: seq<bool>, cells: seq<Cell>,
                               readyExit: nat, lastWindow: int, written: seq<Byte>)

  /** The receiver as it enters its transfer loop. */
  function Start(): Receiver {
    Receiver(0, 0, seq(SEQ_LEN, _ => false), seq(WINDOW_LEN, _ => Unset), 0, -1, [])
  }

  predicate Shaped(r: Receiver) {
    && r.laSeq < SEQ_LEN && r.lastId < 0x1_0000_0000
    && |r.received| == SEQ_LEN && |r.cells| == WINDOW_LEN
  }

  /** Is the node of sequence number k inside the window and filled? */
  predicate Backed(r: Receiver, k: nat)
    requires Shaped(r) && k < SEQ_LEN
  {
    var i := MapToWindow(r.laSeq, k);
    i < WINDOW_LEN && r.cells[i].Filled?
  }

  /** One node per window slot, and every set flag has its packet stored. */
  predicate Stocked(r: Receiver) {
    Shaped(r) && forall k :: 0 <= k < SEQ_LEN && r.received[k] ==> Backed(r, k)
  }

  /** Between two arrivals the packet at the window base is missing. */
  predicate Ordered(r: Receiver) {
    Stocked(r) && !r.received[r.laSeq]
  }

  type OrderedReceiver = r: Receiver | Ordered(r) witness Start()

  // ---------------------------------------------------------------- specification

  /** Number of set flags in a row from unwrapped slot i on, up to slot end. */
  function Run(received: seq<bool>, i: nat, end: nat): (n: nat)
    requires |received| == SEQ_LEN && i <= end
    ensures n <= end - i
    ensures forall j :: i <= j < i + n ==> received[SeqNum(j)]
    ensures n < end - i ==> !received[SeqNum(i + n)]
    decreases end - i
  {
    if i < end && received[SeqNum(i)] then 1 + Run(received, i + 1, end) else 0
  }

  /** The flags after the first n window slots were cleared. */
  function Unflagged(received: seq<bool>, laSeq: nat, n: nat): (s: seq<bool>)
    requires |received| == SEQ_LEN
    ensures |s| == SEQ_LEN
  {
    seq(SEQ_LEN, k requires 0 <= k < SEQ_LEN => MapToWindow(laSeq, k) >= n && received[k])
  }

  function Unsets(n: nat): (s: seq<Cell>)
    ensures |s| == n && forall i :: 0 <= i < n ==> s[i] == Unset
  {
    seq(n, _ => Unset)
  }

  /** The bytes of filled nodes, front first. */
  function Bytes(cells: seq<Cell>): seq<Byte>
    requires forall c <- cells :: c.Filled?
  {
    if cells == [] then [] else Bytes(cells[..|cells| - 1]) + cells[|cells| - 1].payload
  }

  /** Store an accepted packet in its window slot. */
  function Store(r: OrderedReceiver, p: Packet): (q: Receiver)
    requires p.seqNum < SEQ_LEN && MapToWindow(r.laSeq, p.seqNum) < WINDOW_LEN
    ensures Stocked(q)
  {
    r.(received := r.received[p.seqNum := true],
       cells := r.cells[MapToWindow(r.laSeq, p.seqNum) := Filled(p.payload)])
  }

  /** Can the first n nodes be written to the file? */
  predicate Writable(r: Receiver, n: nat) {
    Shaped(r) && n <= WINDOW_LEN && forall i :: 0 <= i < n ==> r.cells[i].Filled?
  }

  /** Write the first n nodes: their payloads go to the file in window order, their
      flags are cleared and as many unset nodes are appended. */
  function WriteOut(r: Receiver, n: nat): Receiver
    requires Writable(r, n)
  {
    r.(lastId := U32(r.lastId + n),
       received := Unflagged(r.received, r.laSeq, n),
       cells := r.cells[n..] + Unsets(n),
       written := r.written + Bytes(r.cells[..n]))
  }

  /** Move the window behind n written packets, after the exit test. */
  function Slide(r: Receiver, n: nat): Receiver {
    r.(readyExit := if r.readyExit != 0 && r.lastWindow == r.laSeq + n - 1 then 2 else r.readyExit,
       laSeq := SeqNum(r.laSeq + n))
  }

  /** How many packets an arrival at sequence number s releases. */
  function Released(r: Receiver, s: nat): (n: nat)
    requires |r.received| == SEQ_LEN
    ensures n <= WINDOW_LEN
  {
    if s == r.laSeq then Run(r.received, r.laSeq, r.laSeq + WINDOW_LEN) else 0
  }

  lemma RunIsFilled(r: Receiver, n: nat)
    requires Stocked(r) && n == Run(r.received, r.laSeq, r.laSeq + WINDOW_LEN)
    ensures Writable(r, n)
  {
    forall i | 0 <= i < n
      ensures r.cells[i].Filled?
    {
      SlotOffset(r.laSeq, r.laSeq + i);
      assert r.received[SeqNum(r.laSeq + i)];
      assert Backed(r, SeqNum(r.laSeq + i));
    }
  }

  lemma SlideKeepsOrder(r: Receiver, n: nat)
    requires Stocked(r) && Writable(r, n)
    requires n < SEQ_LEN && !r.received[SeqNum(r.laSeq + n)]
    ensures Ordered(Slide(WriteOut(r, n), n))
  {
    var q := Slide(WriteOut(r, n), n);
    forall k | 0 <= k < SEQ_LEN && q.received[k]
      ensures Backed(q, k)
    {
      assert Backed(r, k) && MapToWindow(r.laSeq, k) >= n;
      assert MapToWindow(q.laSeq, k) == MapToWindow(r.laSeq, k) - n;
    }
  }

  lemma ReleaseKeepsOrder(r: Receiver, s: nat)
    requires Stocked(r) && (s == r.laSeq || !r.received[r.laSeq])
    ensures Writable(r, Released(r, s))
    ensures !r.received[SeqNum(r.laSeq + Released(r, s))]
    ensures Ordered(Slide(WriteOut(r, Released(r, s)), Released(r, s)))
  {
    var n := Released(r, s);
    if s == r.laSeq {
      RunIsFilled(r, n);
      if n == WINDOW_LEN {
        var k := SeqNum(r.laSeq + n);
        SlotOffset(r.laSeq, r.laSeq + n);
        assert !Backed(r, k);
      }
    }
    SlideKeepsOrder(r, n);
  }

  predicate Accepted(r: Receiver, s: nat)
    requires |r.received| == SEQ_LEN && s < SEQ_LEN
  {
    Between(r.laSeq, SeqNum(r.laSeq + WINDOW_LEN - 1), s) && !r.received[s]
  }

  /** Write what the arrival at s completes and slide the window over it. */
  function Settle(r: Receiver, s: nat): OrderedReceiver
    requires Stocked(r) && (s == r.laSeq || !r.received[r.laSeq])
  {
    ReleaseKeepsOrder(r, s);
    Slide(WriteOut(r, Released(r, s)), Released(r, s))
  }

  /** Remember the sequence number of the last packet. */
  function Note(r: OrderedReceiver, p: Packet): OrderedReceiver {
    if p.kind == 4 then r.(readyExit := 1, lastWindow := p.seqNum) else r
  }

  /** The type and id tests. */
  predicate IsNew(r: Receiver, p: Packet) {
    (p.kind == 2 || p.kind == 4) && p.id > r.lastId
  }

  /** The effect of an intact datagram on the receiver. */
  function Receive(r: OrderedReceiver, p: Packet): OrderedReceiver {
    if !IsNew(r, p) then r
    else
      var t := Note(r, p);
      if p.seqNum < SEQ_LEN && Accepted(t, p.seqNum) then Settle(Store(t, p), p.seqNum) else t
  }

  /** What the main loop does with a received datagram; an empty one stands for none. */
  function Handle(r: OrderedReceiver, buf: seq<Byte>): OrderedReceiver {
    match ParseData(buf)
    case None => r
    case Some(p) => Receive(r, p)
  }

  /** What it does with a buffer into which n bytes were received. */
  function HandleIn(r: OrderedReceiver, buf: seq<Byte>, n: nat): OrderedReceiver
    requires n <= |buf| && HEADER <= |buf|
  {
    match DataIn(buf, n)
    case None => r
    case Some(p) => Receive(r, p)
  }

  /** The flags are only indexed below their number. */
  predicate InFlags(r: Receiver, p: Packet) {
    IsNew(r, p) && Between(r.laSeq, SeqNum(r.laSeq + WINDOW_LEN - 1), p.seqNum) ==> p.seqNum < SEQ_LEN
  }

  /** What is stored has a whole header, so that its length is not negative. */
  predicate InBuffer(r: Receiver, p: Packet, n: nat)
    requires |r.received| == SEQ_LEN
  {
    IsNew(r, p) && p.seqNum < SEQ_LEN && Accepted(r, p.seqNum) ==> HEADER <= n
  }

  lemma ReceiveCases(r: OrderedReceiver, p: Packet)
    ensures !IsNew(r, p) ==> Receive(r, p) == r
    ensures var t := Note(r, p);
      && t.laSeq == r.laSeq && t.received == r.received
      && (IsNew(r, p) && p.seqNum < SEQ_LEN && Accepted(t, p.seqNum) ==> Receive(r, p) == Settle(Store(t, p), p.seqNum))
      && (IsNew(r, p) && (p.seqNum < SEQ_LEN ==> !Accepted(t, p.seqNum)) ==> Receive(r, p) == t)
  {
    hide Settle, Between, SeqNum;
  }

  lemma {:induction false} BytesAppend(cells: seq<Cell>, c: Cell)
    requires (forall b <- cells :: b.Filled?) && c.Filled?
    ensures forall b <- cells + [c] :: b.Filled?
    ensures Bytes(cells + [c]) == Bytes(cells) + c.payload
  {
  }

  /** Write the front node, replace it by an unset one at the end, clear flag k. */
  function WriteFront(r: Receiver, k: nat): Receiver
    requires Shaped(r) && k < SEQ_LEN && r.cells[0].Filled?
  {
    r.(lastId := U32(r.lastId + 1),
       received := r.received[k := false],
       cells := r.cells[1..] + [Unset],
       written := r.written + r.cells[0].payload)
  }

  /** One pass of the writing loop. */
  lemma {:induction false} WriteNext(start: Receiver, n: nat, now: Receiver, k: nat) returns (next: Receiver)
    requires Writable(start, n + 1) && now == WriteOut(start, n) && k == SeqNum(start.laSeq + n)
    ensures Shaped(now) && next.laSeq == start.laSeq && now.cells[0].Filled?
    ensures next == WriteFront(now, k)
    ensures next == WriteOut(start, n + 1)
  {
    U32Next(start.lastId, n);
    UnflaggedNext(start.received, start.laSeq, n);
    BytesNext(start.cells, n);
    ShiftNext(start.cells, n);
    assert start.written + (Bytes(start.cells[..n]) + start.cells[n].payload)
        == (start.written + Bytes(start.cells[..n])) + start.cells[n].payload;
    next := WriteOut(start, n + 1);
  }

  lemma {:induction false} WriteNothing(r: Receiver)
    requires Shaped(r)
    ensures WriteOut(r, 0) == r
  {
  }

  lemma {:induction false} UnflaggedNext(received: seq<bool>, laSeq: nat, n: nat)
    requires |received| == SEQ_LEN && laSeq < SEQ_LEN && n < WINDOW_LEN
    ensures Unflagged(received, laSeq, n + 1) == Unflagged(received, laSeq, n)[SeqNum(laSeq + n) := false]
  {
  }

  lemma {:induction false} BytesNext(cells: seq<Cell>, n: nat)
    requires n < |cells| && forall i :: 0 <= i <= n ==> cells[i].Filled?
    ensures Bytes(cells[..n + 1]) == Bytes(cells[..n]) + cells[n].payload
  {
    assert cells[..n + 1] == cells[..n] + [cells[n]];
    BytesAppend(cells[..n], cells[n]);
  }

  lemma {:induction false} ShiftNext(cells: seq<Cell>, n: nat)
    requires n < |cells|
    ensures (cells[n..] + Unsets(n))[0] == cells[n]
    ensures cells[n + 1..] + Unsets(n + 1) == (cells[n..] + Unsets(n))[1..] + [Unset]
  {
  }

  lemma U32Next(n: nat, k: nat)
    ensures U32(U32(n + k) + 1) == U32(n + k + 1)
  {
  }

  lemma NothingRead(buf: seq<Byte>)
    requires HEADER <= |buf|
    ensures DataIn(buf, 0) == None
  {
  }

  // ---------------------------------------------------------------- the program

  class FileReceiver {
    var laSeq: nat
    var lastId: nat
    var readyExit: nat
    var lastWindow: int
    var written: seq<Byte>
    const received: array<bool>
    const queue: Queue<Cell>
    ghost var State: Receiver  // what the fields stand for

    ghost predicate Valid()
      reads this, received, queue, queue.Repr
    {
      && queue.Valid() && received.Length == SEQ_LEN
      && laSeq == State.laSeq && lastId == State.lastId
      && readyExit == State.readyExit && lastWindow == State.lastWindow && written == State.written
      && received[..] == State.received && queue.Contents == State.cells
    }

    constructor ()
      ensures Valid() && State == Start()
      ensures fresh(received) && fresh(queue) && fresh(queue.Repr)
    {
      laSeq, lastId, readyExit, lastWindow, written := 0, 0, 0, -1, [];
      received := new bool[SEQ_LEN](_ => false);
      queue := new Queue<Cell>();
      State := Start();
      new;
      for i := 0 to WINDOW_LEN
        invariant laSeq == lastId == readyExit == 0 && lastWindow == -1 && written == [] && State == Start()
        invariant fresh(queue.Repr) && queue.Valid()
        invariant queue.Contents == Unsets(i) && received[..] == State.received
      {
        queue.EnqueueNew(Unset);
      }
    }

    /** One pass of the main loop: the received datagram, then the acknowledgement. */
    method LoopPass(buf: array<Byte>, recvlen: nat, now: nat) returns (ack: array<Byte>)
      requires Valid() && Ordered(State)
      requires recvlen <= buf.Length && HEADER <= buf.Length && recvlen < 0x1_0000 && recvlen != 1
      requires var p := DataIn(buf[..], recvlen);
        p.Some? ==> InFlags(State, p.value) && InBuffer(State, p.value, recvlen)
      modifies this, received, queue, queue.Repr
      ensures Valid() && fresh(queue.Repr - old(queue.Repr))
      ensures State == HandleIn(old(State), old(buf[..]), recvlen)
      ensures recvlen == 0 || HEADER <= recvlen ==> State == Handle(old(State), old(buf[..recvlen]))
      ensures fresh(ack) && ack[..] == EncodeAck(MakeAck(State.laSeq, now))
    {
      hide Receive, ParseData, DataIn, EncodeAck, MakeAck, InFlags, InBuffer;
      ghost var b := buf[..];
      assert b[..recvlen] == buf[..recvlen];
      if recvlen == 0 || HEADER <= recvlen {
        WholeDataIn(b, recvlen);
      }
      var p: Option<Packet> := None;
      if recvlen > 0 {
        p := ReadData(buf, recvlen);
      } else {
        NothingRead(b);
      }
      if p.Some? {
        ReceivePacket(p.value);
      }
      ack := BuildAck(MakeAck(laSeq, now));
    }

    method ReceivePacket(p: Packet)
      requires Valid() && Ordered(State) && InFlags(State, p)
      modifies this, received, queue, queue.Repr
      ensures Valid() && fresh(queue.Repr - old(queue.Repr))
      ensures State == Receive(old(State), p)
    {
      hide Receive, Note, Settle, Store, Between, SeqNum, Shaped, Backed;
      ReceiveCases(State, p);
      if (p.kind == 2 || p.kind == 4) && p.id > lastId {
        NoteLast(p);
        if Between(laSeq, SeqNum(laSeq + WINDOW_LEN - 1), p.seqNum) && !received[p.seqNum] {
          Accept(p);
        }
      }
    }

    method NoteLast(p: Packet)
      requires Valid() && Ordered(State)
      modifies this
      ensures Valid() && State == Note(old(State), p)
    {
      if p.kind == 4 {
        readyExit := 1;
        lastWindow := p.seqNum;
      }
      State := Note(State, p);
    }

    method Accept(p: Packet)
      requires Valid() && Ordered(State) && p.seqNum < SEQ_LEN && Accepted(State, p.seqNum)
      modifies this, received, queue, queue.Repr
      ensures Valid() && fresh(queue.Repr - old(queue.Repr))
      ensures State == Settle(Store(old(State), p), p.seqNum)
    {
      var count := Keep(p);
      ReleaseKeepsOrder(State, p.seqNum);
      WriteNodes(count);
      MoveWindow(count);
    }

    /** Set the flag, count what is complete and store the payload. */
    method Keep(p: Packet) returns (count: nat)
      requires Valid() && Ordered(State) && p.seqNum < SEQ_LEN && Accepted(State, p.seqNum)
      modifies received, `State, queue`Contents, queue.Repr
      ensures Valid() && State == Store(old(State), p) && count == Released(State, p.seqNum)
    {
      received[p.seqNum] := true;
      count := CountReleased(p.seqNum);
      StoreNode(MapToWindow(laSeq, p.seqNum), p.payload);
      State := Store(State, p);
    }

    /** What an arrival at s completes: something only if it is the window base. */
    method CountReleased(s: nat) returns (count: nat)
      requires received.Length == SEQ_LEN
      ensures count == if s == laSeq then Run(received[..], laSeq, laSeq + WINDOW_LEN) else 0
    {
      count := 0;
      if s == laSeq {
        count := CountRun();
      }
    }

    /** Length of the run of set flags at the window base. */
    method CountRun() returns (count: nat)
      requires received.Length == SEQ_LEN
      ensures count == Run(received[..], laSeq, laSeq + WINDOW_LEN)
    {
      count := 0;
      var i := laSeq;
      while i < laSeq + WINDOW_LEN
        invariant laSeq <= i <= laSeq + WINDOW_LEN
        invariant count + Run(received[..], i, laSeq + WINDOW_LEN) == Run(received[..], laSeq, laSeq + WINDOW_LEN)
      {
        if received[SeqNum(i)] {
          count := count + 1;
        } else {
          break;
        }
        i := i + 1;
      }
    }

    /** The reserved node of the slot exists, so the payload is copied into it. */
    method StoreNode(ind: nat, payload: seq<Byte>)
      requires queue.Valid() && ind < |queue.Contents|
      modifies queue`Contents, queue.Repr
      ensures queue.Valid() && queue.Contents == old(queue.Contents)[ind := Filled(payload)]
    {
      var node := queue.GetK(ind);
      assert node != null;
      node.data := Filled(payload);
      queue.Contents := queue.Contents[ind := Filled(payload)];
    }

    /** The writing loop. */
    method WriteNodes(count: nat)
      requires Valid() && Writable(State, count)
      modifies this, received, queue, queue.Repr
      ensures Valid() && fresh(queue.Repr - old(queue.Repr))
      ensures State == WriteOut(old(State), count)
    {
      ghost var start := State;
      ghost var now := State;
      WriteNothing(start);
      for reverseCount := 0 to count
        invariant Valid() && fresh(queue.Repr - old(queue.Repr)) && State.laSeq == start.laSeq
        invariant State == now && now == WriteOut(start, reverseCount)
      {
        var k := SeqNum(laSeq + reverseCount);
        now := WriteNext(start, reverseCount, now, k);
        WriteNode(k, now);
      }
    }

    method WriteNode(k: nat, ghost next: Receiver)
      requires Valid() && Shaped(State) && k < SEQ_LEN && State.cells[0].Filled?
      requires next == WriteFront(State, k)
      modifies this, received, queue, queue.Repr
      ensures Valid() && fresh(queue.Repr - old(queue.Repr)) && State == next
    {
      WriteRoot(k);
      State := next;
    }

    /** Write the front node, replace it by an unset one at the end, clear flag k. */
    method WriteRoot(k: nat)
      requires queue.Valid() && queue.Contents != [] && queue.Contents[0].Filled? && k < received.Length
      modifies `lastId, `written, received, queue, queue.Repr
      ensures queue.Valid() && fresh(queue.Repr - old(queue.Repr))
      ensures lastId == U32(old(lastId) + 1)
      ensures written == old(written) + old(queue.Contents)[0].payload
      ensures queue.Contents == old(queue.Contents)[1..] + [Unset]
      ensures received[..] == old(received[..])[k := false]
    {
      lastId := U32(lastId + 1);
      written := written + queue.root.data.payload;
      queue.Dequeue();
      queue.EnqueueNew(Unset);
      received[k] := false;
    }

    /** The exit test, then the window moves over what was written. */
    method MoveWindow(count: nat)
      requires Valid()
      modifies this
      ensures Valid() && State == Slide(old(State), count)
    {
      if readyExit != 0 && lastWindow == laSeq + count - 1 {
        readyExit := 2;
      }
      laSeq := SeqNum(laSeq + count);
      State := Slide(State, count);
    }
  }
}
